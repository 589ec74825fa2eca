/** `progressService.createLog`: the multipart body it builds and the check on
    the server's answer. */
module ProgressService {
  import opened Common
  import opened Text

  const DefaultCreateError: string := "Failed to create progress log"

  /** One `FormData` value: text or a file. */
  datatype FormValue = Text(text: string) | Blob(file: File)
  type FormData = seq<(string, FormValue)>

  /** `CreateProgressLogPayload`: `image` and `notes` are optional. */
  datatype LogPayload = LogPayload(image: Option<File>, notes: Option<string>, concerns: string, rating: nat)

  /** `ProgressLogData`; `createdAt` is a timestamp. */
  datatype ProgressLog = ProgressLog(
    id: string,
    imageUrl: Option<string>,
    notes: Option<string>,
    concerns: string,
    rating: int,
    createdAt: int)

  /** `ProgressLogResponse`. */
  datatype LogResponse = LogResponse(success: bool, message: Option<string>, log: Option<ProgressLog>)

  /** The field names of a body, in order. */
  function Keys(form: FormData): (ks: seq<string>)
    ensures |ks| == |form|
    ensures forall i :: 0 <= i < |form| ==> ks[i] == form[i].0
  {
    seq(|form|, i requires 0 <= i < |form| => form[i].0)
  }

  predicate Truthy(s: Option<string>) {
    s.Some? && s.value != ""
  }

  /** The body `createLog` sends, built by its sequence of `append` calls. */
  method BuildLogForm(p: LogPayload) returns (form: FormData)
    ensures |form| >= 2
    ensures form[|form| - 2] == ("concerns", Text(p.concerns))
    ensures form[|form| - 1] == ("rating", Text(NatToString(p.rating)))
    ensures Keys(form) == (if p.image.Some? then ["image"] else [])
                        + (if Truthy(p.notes) then ["notes"] else []) + ["concerns", "rating"]
    ensures p.image.Some? ==> form[0] == ("image", Blob(p.image.value))
    ensures Truthy(p.notes) ==> form[|form| - 3] == ("notes", Text(p.notes.value))
  {
    form := [];
    if p.image.Some? {
      form := form + [("image", Blob(p.image.value))];
    }
    if Truthy(p.notes) {
      form := form + [("notes", Text(p.notes.value))];
    }
    form := form + [("concerns", Text(p.concerns))];
    form := form + [("rating", Text(NatToString(p.rating)))];
  }

  /** The server reads the rating entry back as the number that was sent. */
  lemma RatingRoundTrip(p: LogPayload)
    ensures ParseInt(NatToString(p.rating)) == Some(p.rating)
  {
    ParseNatToString(p.rating);
  }

  /** The check after the POST: a log only when `success` is set and a log came back. */
  function CheckLogResponse(data: LogResponse): (r: Result<ProgressLog>)
    ensures r.Ok? <==> data.success && data.log.Some?
    ensures r.Ok? ==> r.value == data.log.value
    ensures r.Err? ==> r.message == (if Truthy(data.message) then data.message.value else DefaultCreateError)
  {
    if !data.success || data.log.None? then
      Err(if Truthy(data.message) then data.message.value else DefaultCreateError)
    else Ok(data.log.value)
  }

  /** `createLog(payload)`: `response` is the awaited POST (its rejection propagates). */
  method CreateLog(p: LogPayload, response: Result<LogResponse>) returns (sent: FormData, r: Result<ProgressLog>)
    ensures response.Err? ==> r == Err(response.message)
    ensures response.Ok? ==> r == CheckLogResponse(response.value)
    ensures |sent| >= 2
    ensures sent[|sent| - 2] == ("concerns", Text(p.concerns))
    ensures sent[|sent| - 1] == ("rating", Text(NatToString(p.rating)))
    ensures Keys(sent) == (if p.image.Some? then ["image"] else [])
                        + (if Truthy(p.notes) then ["notes"] else []) + ["concerns", "rating"]
    ensures p.image.Some? ==> sent[0] == ("image", Blob(p.image.value))
    ensures Truthy(p.notes) ==> sent[|sent| - 3] == ("notes", Text(p.notes.value))
  {
    sent := BuildLogForm(p);
    match response
    case Err(msg) => r := Err(msg);
    case Ok(data) => r := CheckLogResponse(data);
  }
}
