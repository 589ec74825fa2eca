/** The records the client exchanges with the API, with the field names the
    pages use. Roles, skin types and concerns travel as strings ("USER",
    "DRY", "UNEVEN_TEXTURE", ...), as they do at run time. */
module Types {
  import opened Common

  const RoleUser: string := "USER"
  const RoleDermatologist: string := "DERMATOLOGISTS"
  const RoleAdmin: string := "ADMIN"

  /** `UserData`; `phone` and `image` are optional. */
  datatype User = User(
    id: string,
    email: string,
    name: string,
    role: string,
    phone: Option<string>,
    image: Option<string>)

  /** The body of a login or register response. */
  datatype AuthResponse = AuthResponse(success: bool, message: string, user: User, token: string)

  /** A stored skin profile as the server returns it: `SkinType: [{type}]`,
      `Concerns: [{concern}]`, and the optional free-text fields. */
  datatype SkinProfile = SkinProfile(
    id: string,
    skinTypes: seq<string>,
    concerns: seq<string>,
    allergies: Option<string>,
    goals: Option<string>)

  /** The author of a chat message, as embedded in it. */
  datatype Sender = Sender(id: string, name: string, image: Option<string>)

  /** `MessageData`; `createdAt` is a timestamp. */
  datatype Message = Message(
    id: string,
    content: string,
    chatId: string,
    senderId: string,
    createdAt: int,
    read: bool,
    sender: Sender)

  /** A party of a conversation, an appointment or a patient row. */
  datatype Person = Person(id: string, name: string, email: string, image: Option<string>)

  /** `ChatData`: one patient, one dermatologist and, when loaded, the messages. */
  datatype Chat = Chat(id: string, user: Person, dermatologist: Person, messages: Option<seq<Message>>)

  /** An entry of a product's `suitableSkinTypes`: `{type}`. */
  datatype SkinTypeRef = SkinTypeRef(skinType: string)

  /** An entry of a product's `targetConcerns`: `{concern}`. */
  datatype ConcernRef = ConcernRef(concern: string)

  /** `list.map(st => st.type)`. */
  function TypeNames(s: seq<SkinTypeRef>): (r: seq<string>)
    ensures |r| == |s|
    ensures forall i :: 0 <= i < |s| ==> r[i] == s[i].skinType
  {
    seq(|s|, i requires 0 <= i < |s| => s[i].skinType)
  }

  /** `list.map(tc => tc.concern)`. */
  function ConcernNames(s: seq<ConcernRef>): (r: seq<string>)
    ensures |r| == |s|
    ensures forall i :: 0 <= i < |s| ==> r[i] == s[i].concern
  {
    seq(|s|, i requires 0 <= i < |s| => s[i].concern)
  }

  /** `ProductData` with the fields the pages use; `price` is optional. */
  datatype Product = Product(
    id: string,
    name: string,
    brand: string,
    description: string,
    ingredients: string,
    sustainabilityScore: int,
    allergens: Option<string>,
    imageUrl: Option<string>,
    price: Option<int>,
    suitableSkinTypes: seq<SkinTypeRef>,
    targetConcerns: seq<ConcernRef>)

  /** `RoutineData`; `routineType` is the record's `type` field. */
  datatype Routine = Routine(id: string, name: string, routineType: string)

  /** A patient's `skinProfile` as the dermatologist pages read it; every
      part may be missing. */
  datatype PatientProfile = PatientProfile(
    skinTypes: Option<seq<SkinTypeRef>>,
    concerns: Option<seq<ConcernRef>>,
    lastAssessment: Option<int>)

  /** `Patient`; `createdAt` is a timestamp. */
  datatype Patient = Patient(id: string, name: string, email: string, createdAt: int, skinProfile: Option<PatientProfile>)

  /** `AppointmentData`: `user` is the patient; `date` is kept as sent. */
  datatype Appointment = Appointment(
    id: string,
    user: Person,
    dermatologist: Person,
    date: string,
    status: string,
    notes: Option<string>)
}
