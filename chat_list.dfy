/** The conversation list both chat pages show: `chats.find` by id, the
    preview line and the search on the other party's name. */
module ChatList {
  import opened Common
  import opened Text
  import opened Types
  import opened Search

  /** `chats.find(chat => chat.id === id)`: the first chat with that id. */
  function FindById(chats: seq<Chat>, id: string): (r: Option<Chat>)
    ensures r.Some? ==> r.value in chats && r.value.id == id
    ensures r.None? <==> forall c :: c in chats ==> c.id != id
    ensures r.Some? ==> exists k :: 0 <= k < |chats| && chats[k] == r.value && forall j :: 0 <= j < k ==> chats[j].id != id
    decreases |chats|
  {
    if chats == [] then None
    else if chats[0].id == id then Some(chats[0])
    else
      var rest := FindById(chats[1..], id);
      if rest.Some? then
        var k :| 0 <= k < |chats[1..]| && chats[1..][k] == rest.value && forall j :: 0 <= j < k ==> chats[1..][j].id != id;
        assert chats[k + 1] == rest.value;
        assert forall j :: 0 <= j < k + 1 ==> chats[j].id != id by {
          forall j | 0 <= j < k + 1 ensures chats[j].id != id {
            if j > 0 { assert chats[j] == chats[1..][j - 1]; }
          }
        }
        rest
      else
        assert forall c :: c in chats ==> c == chats[0] || c in chats[1..];
        rest
  }

  /** The line under a chat's name: the last message's content, when the
      messages are loaded and there is at least one. */
  function Preview(c: Chat): (r: Option<string>)
    ensures r.Some? <==> c.messages.Some? && |c.messages.value| > 0
    ensures r.Some? ==> r.value == c.messages.value[|c.messages.value| - 1].content
  {
    if c.messages.Some? && |c.messages.value| > 0 then Some(c.messages.value[|c.messages.value| - 1].content) else None
  }

  /** A message appended to a chat becomes its preview. */
  lemma PreviewAfterAppend(c: Chat, m: Message)
    requires c.messages.Some?
    ensures Preview(c.(messages := Some(c.messages.value + [m]))) == Some(m.content)
  {
  }

  function DermatologistName(c: Chat): string { c.dermatologist.name }
  function PatientName(c: Chat): string { c.user.name }

  /** The user's list: the dermatologist's name contains the term. */
  function ByDermatologist(chats: seq<Chat>, term: string): (r: seq<Chat>)
    ensures forall c :: c in r <==> c in chats && Includes(c.dermatologist.name, term)
    ensures IsSubsequence(r, chats)
    ensures term == "" ==> r == chats
  {
    SearchOne(chats, DermatologistName, term)
  }

  /** The dermatologist's list: the patient's name contains the term. */
  function ByPatient(chats: seq<Chat>, term: string): (r: seq<Chat>)
    ensures forall c :: c in r <==> c in chats && Includes(c.user.name, term)
    ensures IsSubsequence(r, chats)
    ensures term == "" ==> r == chats
  {
    SearchOne(chats, PatientName, term)
  }
}
