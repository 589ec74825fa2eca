/** `JSON.stringify` / `JSON.parse` of the cached user, as far as the session
    relies on them: the stored text is never empty and parses back to the
    same user. The text format is a field list: each field is escaped
    (`\` and `|` get a leading `\`) and terminated by `|`; optional fields
    are written "0" when absent and "1" followed by the value when present. */
module UserCodec {
  import opened Common
  import opened Types

  function Escape(f: string): string
    decreases |f|
  {
    if f == [] then []
    else (if f[0] == '|' || f[0] == '\\' then ['\\', f[0]] else [f[0]]) + Escape(f[1..])
  }

  /** Read one field up to its unescaped terminator; the rest of the text follows. */
  function ReadField(s: string): (r: Option<(string, string)>)
    ensures r.Some? ==> |r.value.1| < |s|
    decreases |s|
  {
    if s == [] then None
    else if s[0] == '|' then Some(([], s[1..]))
    else if s[0] == '\\' then
      if |s| < 2 then None
      else match ReadField(s[2..])
        case None => None
        case Some((f, rest)) => Some(([s[1]] + f, rest))
    else match ReadField(s[1..])
      case None => None
      case Some((f, rest)) => Some(([s[0]] + f, rest))
  }

  lemma {:induction false} ReadEscaped(f: string, rest: string)
    ensures ReadField(Escape(f) + "|" + rest) == Some((f, rest))
    decreases |f|
  {
    var s := Escape(f) + "|" + rest;
    if f == [] {
      assert s == "|" + rest;
    } else {
      ReadEscaped(f[1..], rest);
      var tail := Escape(f[1..]) + "|" + rest;
      if f[0] == '|' || f[0] == '\\' {
        assert s == ['\\', f[0]] + tail;
        assert s[2..] == tail;
      } else {
        assert s == [f[0]] + tail;
        assert s[1..] == tail;
      }
      assert f == [f[0]] + f[1..];
    }
  }

  function Encode(fields: seq<string>): string
    decreases |fields|
  {
    if fields == [] then "" else Escape(fields[0]) + "|" + Encode(fields[1..])
  }

  function Decode(s: string): Option<seq<string>>
    decreases |s|
  {
    if s == [] then Some([])
    else match ReadField(s)
      case None => None
      case Some((f, rest)) =>
        match Decode(rest)
        case None => None
        case Some(fs) => Some([f] + fs)
  }

  lemma {:induction false} DecodeEncode(fields: seq<string>)
    ensures Decode(Encode(fields)) == Some(fields)
    decreases |fields|
  {
    if fields != [] {
      ReadEscaped(fields[0], Encode(fields[1..]));
      DecodeEncode(fields[1..]);
      assert Encode(fields) == Escape(fields[0]) + "|" + Encode(fields[1..]);
      assert fields == [fields[0]] + fields[1..];
    }
  }

  function OptField(o: Option<string>): string {
    match o
    case None => "0"
    case Some(v) => "1" + v
  }

  function ReadOpt(f: string): Option<Option<string>> {
    if f == "0" then Some(None)
    else if |f| >= 1 && f[0] == '1' then Some(Some(f[1..]))
    else None
  }

  /** An optional field reads back as the option it was written from. */
  lemma ReadOptField(o: Option<string>)
    ensures ReadOpt(OptField(o)) == Some(o)
  {
    match o
    case None =>
    case Some(v) =>
      var f := "1" + v;
      assert f[0] == '1' && f[1..] == v;
      assert f != "0" by {
        assert f[0] != "0"[0];
      }
  }

  function Fields(u: User): seq<string> {
    [u.id, u.email, u.name, u.role, OptField(u.phone), OptField(u.image)]
  }

  /** `JSON.stringify(user)`: never the empty (falsy) string. */
  function Stringify(u: User): (s: string)
    ensures s != ""
  {
    assert Encode(Fields(u)) == Escape(u.id) + "|" + Encode(Fields(u)[1..]);
    Encode(Fields(u))
  }

  /** `JSON.parse(text)` as a user; `None` stands for the thrown SyntaxError. */
  function Parse(s: string): Option<User> {
    match Decode(s)
    case None => None
    case Some(fs) =>
      if |fs| != 6 then None
      else match (ReadOpt(fs[4]), ReadOpt(fs[5]))
        case (Some(phone), Some(image)) => Some(User(fs[0], fs[1], fs[2], fs[3], phone, image))
        case _ => None
  }

  /** `JSON.parse(JSON.stringify(u))` gives `u` back. */
  lemma ParseStringify(u: User)
    ensures Parse(Stringify(u)) == Some(u)
  {
    var fs := Fields(u);
    DecodeEncode(fs);
    assert |fs| == 6 && fs[4] == OptField(u.phone) && fs[5] == OptField(u.image);
    ReadOptField(u.phone);
    ReadOptField(u.image);
  }
}
