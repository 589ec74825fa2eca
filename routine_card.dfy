/** `RoutineCard`: the picture chosen from the routine's type, and the two
    callbacks the card raises. */
module RoutineCard {
  import opened Common
  import opened Text
  import opened Types

  const MorningImage: string := "https://images.pexels.com/photos/4045607/pexels-photo-4045607.jpeg"
  const NightImage: string := "https://images.pexels.com/photos/573238/pexels-photo-573238.jpeg"
  const WeeklyImage: string := "https://images.pexels.com/photos/31745943/pexels-photo-31745943/free-photo-of-woman-in-green-jacket-walking-dog-outdoors.jpeg"
  const DefaultImage: string := "https://images.pexels.com/photos/3036525/pexels-photo-3036525.jpeg"

  /** `getRoutineImage(type)`: the first keyword the lowercased type contains wins. */
  function RoutineImage(t: string): (url: string)
    ensures Contains(Lower(t), "morning") ==> url == MorningImage
    ensures !Contains(Lower(t), "morning") && Contains(Lower(t), "night") ==> url == NightImage
    ensures !Contains(Lower(t), "morning") && !Contains(Lower(t), "night") && Contains(Lower(t), "weekly") ==> url == WeeklyImage
    ensures !Contains(Lower(t), "morning") && !Contains(Lower(t), "night") && !Contains(Lower(t), "weekly") ==> url == DefaultImage
  {
    var lower := Lower(t);
    if Contains(lower, "morning") then MorningImage
    else if Contains(lower, "night") then NightImage
    else if Contains(lower, "weekly") then WeeklyImage
    else DefaultImage
  }

  lemma {:induction false} LowerIdempotent(s: string)
    ensures Lower(Lower(s)) == Lower(s)
  {
    assert forall i :: 0 <= i < |s| ==> LowerChar(LowerChar(s[i])) == LowerChar(s[i]);
  }

  /** The picture depends only on the type's lowercase form. */
  lemma ImageIgnoresCase(t: string)
    ensures RoutineImage(t) == RoutineImage(Lower(t))
  {
    LowerIdempotent(t);
  }

  /** The four pictures are different, so the picture tells the classes apart. */
  lemma ImagesDistinct()
    ensures MorningImage != NightImage && MorningImage != WeeklyImage && MorningImage != DefaultImage
    ensures NightImage != WeeklyImage && NightImage != DefaultImage && WeeklyImage != DefaultImage
  {
    assert MorningImage[33] == '4' && NightImage[33] == '5' && DefaultImage[33] == '3';
    assert |WeeklyImage| != |MorningImage| && |WeeklyImage| != |NightImage| && |WeeklyImage| != |DefaultImage|;
  }

  datatype CardEvent = EditRequested(routine: Routine) | DeleteRequested(id: string)

  datatype CardButton = EditButton | DeleteButton

  /** `handleEdit` reports the routine itself; `handleDelete` reports its id. */
  function Click(r: Routine, b: CardButton): (e: CardEvent)
    ensures b == EditButton <==> e.EditRequested?
    ensures e.EditRequested? ==> e.routine == r
    ensures e.DeleteRequested? ==> e.id == r.id
  {
    match b
    case EditButton => EditRequested(r)
    case DeleteButton => DeleteRequested(r.id)
  }
}
