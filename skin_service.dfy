/** `skinProfileService.createSkinProfile` / `updateSkinProfile`: the request
    each one sends. */
module SkinService {
  import opened Common

  const SkinProfileUrl: string := "/api/skinProfile"

  /** The assessment values handed to the service. */
  datatype ProfileInput = ProfileInput(
    skinType: Option<string>,
    concerns: seq<string>,
    allergies: Option<string>,
    goals: Option<string>)

  datatype TypeEntry = TypeEntry(skinType: Option<string>)
  datatype ConcernEntry = ConcernEntry(concern: string)

  /** The JSON body: `{skinType: [{type}], concerns: [{concern}], allergies, goals}`. */
  datatype Payload = Payload(
    skinType: seq<TypeEntry>,
    concerns: seq<ConcernEntry>,
    allergies: string,
    goals: Option<string>)

  datatype Request = Request(verb: string, url: string, body: Payload)

  function BuildPayload(input: ProfileInput): (p: Payload)
    ensures p.skinType == [TypeEntry(input.skinType)]
    ensures |p.concerns| == |input.concerns|
    ensures forall i :: 0 <= i < |input.concerns| ==> p.concerns[i].concern == input.concerns[i]
    ensures p.allergies == if input.allergies.Some? && input.allergies.value != "" then input.allergies.value else ""
    ensures p.goals == input.goals
  {
    Payload(
      [TypeEntry(input.skinType)],
      seq(|input.concerns|, i requires 0 <= i < |input.concerns| => ConcernEntry(input.concerns[i])),
      input.allergies.GetOr(""),
      input.goals)
  }

  /** The concern names can be read back from the payload, in order. */
  lemma ConcernsRecoverable(input: ProfileInput)
    ensures seq(|BuildPayload(input).concerns|, i requires 0 <= i < |BuildPayload(input).concerns| =>
                BuildPayload(input).concerns[i].concern) == input.concerns
  {
  }

  /** `createSkinProfile`'s request. */
  function CreateRequest(input: ProfileInput): Request {
    Request("POST", SkinProfileUrl, BuildPayload(input))
  }

  /** `updateSkinProfile`'s request. */
  function UpdateRequest(input: ProfileInput): Request {
    Request("PUT", SkinProfileUrl, BuildPayload(input))
  }

  /** Create and update send the same body to the same path; only the verb differs. */
  lemma CreateUpdateDifferOnlyInVerb(input: ProfileInput)
    ensures CreateRequest(input).body == UpdateRequest(input).body
    ensures CreateRequest(input).url == UpdateRequest(input).url
    ensures CreateRequest(input).verb != UpdateRequest(input).verb
  {
  }
}
