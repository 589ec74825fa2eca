/** The label formatting the admin pages and the user dashboard apply to enum
    names such as "UNEVEN_TEXTURE": split on "_", format each word, join with
    a space. Each formatting is proved equal to a character-by-character
    reference. */
module Labels {
  import opened Common
  import opened Text

  function MapChars(f: char -> char, s: string): (r: string)
    ensures |r| == |s|
    ensures forall i :: 0 <= i < |s| ==> r[i] == f(s[i])
  {
    seq(|s|, i requires 0 <= i < |s| => f(s[i]))
  }

  function Keep(c: char): char { c }

  /** `first(word.charAt(0)) + rest-mapped word.slice(1)`; the empty word stays empty. */
  function FormatWord(w: string, first: char -> char, rest: char -> char): string {
    if w == [] then [] else [first(w[0])] + MapChars(rest, w[1..])
  }

  function FormatWords(ws: seq<string>, first: char -> char, rest: char -> char): (r: seq<string>)
    ensures |r| == |ws|
    decreases |ws|
  {
    if ws == [] then [] else [FormatWord(ws[0], first, rest)] + FormatWords(ws[1..], first, rest)
  }

  /** The reference: "_" becomes a space, a word's first character goes
      through `first` and every other character through `rest`. `atStart`
      says whether `s` begins a word. */
  function Scan(s: string, atStart: bool, first: char -> char, rest: char -> char): (r: string)
    ensures |r| == |s|
    decreases |s|
  {
    if s == [] then []
    else if s[0] == '_' then [' '] + Scan(s[1..], true, first, rest)
    else [if atStart then first(s[0]) else rest(s[0])] + Scan(s[1..], false, first, rest)
  }

  /** What `Scan` does at each position. */
  lemma {:induction false} ScanAt(s: string, atStart: bool, first: char -> char, rest: char -> char, i: int)
    requires 0 <= i < |s|
    ensures Scan(s, atStart, first, rest)[i] ==
      if s[i] == '_' then ' '
      else if (i == 0 && atStart) || (i > 0 && s[i - 1] == '_') then first(s[i])
      else rest(s[i])
    decreases |s|
  {
    if i > 0 {
      ScanAt(s[1..], s[0] == '_', first, rest, i - 1);
    }
  }

  /** Splitting on "_", formatting the words and joining with " " is the reference. */
  lemma {:induction false} FormatIsScan(s: string, first: char -> char, rest: char -> char)
    ensures Join(FormatWords(Split(s, '_'), first, rest), " ") == Scan(s, true, first, rest)
    ensures var p := Split(s, '_');
      Join([MapChars(rest, p[0])] + FormatWords(p[1..], first, rest), " ") == Scan(s, false, first, rest)
    decreases |s|
  {
    if s == [] {
      assert Split(s, '_') == [[]];
    } else {
      FormatIsScan(s[1..], first, rest);
      var r := Split(s[1..], '_');
      var tail := FormatWords(r, first, rest);
      if s[0] == '_' {
        assert Split(s, '_') == [[]] + r;
        assert FormatWords([[]] + r, first, rest) == [[]] + tail;
        assert ([[]] + r)[1..] == r;
        JoinConsEmpty(tail, " ");
        assert MapChars(rest, []) == [];
      } else {
        var p := [[s[0]] + r[0]] + r[1..];
        assert Split(s, '_') == p;
        assert p[1..] == r[1..];
        var more := FormatWords(r[1..], first, rest);
        assert FormatWord([s[0]] + r[0], first, rest) == [first(s[0])] + MapChars(rest, r[0]) by {
          assert ([s[0]] + r[0])[1..] == r[0];
        }
        assert FormatWords(p, first, rest) == [[first(s[0])] + MapChars(rest, r[0])] + more;
        JoinConsHead(first(s[0]), MapChars(rest, r[0]), more, " ");
        assert MapChars(rest, [s[0]] + r[0]) == [rest(s[0])] + MapChars(rest, r[0]);
        JoinConsHead(rest(s[0]), MapChars(rest, r[0]), more, " ");
      }
    }
  }

  /** The skin-type label: `type.charAt(0) + type.slice(1).toLowerCase()`. */
  function SkinTypeLabel(t: string): (r: string)
    ensures |r| == |t|
    ensures |t| > 0 ==> r[0] == t[0]
    ensures forall i :: 0 < i < |t| ==> r[i] == LowerChar(t[i])
  {
    FormatWord(t, Keep, LowerChar)
  }

  /** The admin concern label: each "_"-separated word keeps its first
      character and lowercases the rest; the words are joined with a space. */
  function ConcernLabel(c: string): (r: string)
    ensures r == Scan(c, true, Keep, LowerChar)
    ensures |r| == |c|
    ensures forall i :: 0 <= i < |c| ==> (c[i] == '_' <==> r[i] == ' ') || c[i] == ' '
  {
    FormatIsScan(c, Keep, LowerChar);
    var r := Join(FormatWords(Split(c, '_'), Keep, LowerChar), " ");
    assert forall i :: 0 <= i < |c| ==> (c[i] == '_' <==> r[i] == ' ') || c[i] == ' ' by {
      forall i | 0 <= i < |c| ensures (c[i] == '_' <==> r[i] == ' ') || c[i] == ' ' {
        ScanAt(c, true, Keep, LowerChar, i);
      }
    }
    r
  }

  /** The user dashboard's concern text: lowercase the whole name, split on
      "_", uppercase each word's first character, join with a space. */
  function DisplayConcern(c: string): (r: string)
    ensures r == Scan(Lower(c), true, UpperChar, Keep)
    ensures |r| == |c|
  {
    FormatIsScan(Lower(c), UpperChar, Keep);
    Join(FormatWords(Split(Lower(c), '_'), UpperChar, Keep), " ")
  }

  predicate IsEnumName(c: string) {
    forall i :: 0 <= i < |c| ==> ('A' <= c[i] <= 'Z' || c[i] == '_')
  }

  lemma {:induction false} ScansAgree(c: string, atStart: bool)
    requires IsEnumName(c)
    ensures Scan(c, atStart, Keep, LowerChar) == Scan(Lower(c), atStart, UpperChar, Keep)
    decreases |c|
  {
    if c != [] {
      assert IsEnumName(c[1..]) by {
        forall i | 0 <= i < |c[1..]| ensures 'A' <= c[1..][i] <= 'Z' || c[1..][i] == '_' {
          assert c[1..][i] == c[i + 1];
        }
      }
      ScansAgree(c[1..], c[0] == '_');
      assert Lower(c)[1..] == Lower(c[1..]);
      assert 'A' <= c[0] <= 'Z' || c[0] == '_';
    }
  }

  /** On enum names (capital letters and "_") the admin label and the user
      dashboard's text are the same string. */
  lemma LabelsAgreeOnEnumNames(c: string)
    requires IsEnumName(c)
    ensures ConcernLabel(c) == DisplayConcern(c)
  {
    ScansAgree(c, true);
  }

  /** A word without "_" is its first character followed by the rest through `rest`. */
  lemma {:induction false} ScanWord(w: string, first: char -> char, rest: char -> char)
    requires '_' !in w
    ensures Scan(w, false, first, rest) == MapChars(rest, w)
    decreases |w|
  {
    if w != [] {
      ScanWord(w[1..], first, rest);
      assert MapChars(rest, w) == [rest(w[0])] + MapChars(rest, w[1..]);
    }
  }

  /** Two words joined by "_": the first characters go through `first`, the
      rest through `rest`, and the "_" becomes a space. */
  lemma {:induction false} TwoWordScan(a: string, b: string, first: char -> char, rest: char -> char)
    requires a != [] && b != [] && '_' !in a && '_' !in b
    ensures Scan(a + "_" + b, true, first, rest) ==
      ([first(a[0])] + MapChars(rest, a[1..])) + " " + ([first(b[0])] + MapChars(rest, b[1..]))
  {
    var u := "_" + b;
    var tailB := Scan(b, true, first, rest);
    assert tailB == [first(b[0])] + MapChars(rest, b[1..]) by {
      assert b[0] != '_' && '_' !in b[1..];
      ScanWord(b[1..], first, rest);
    }
    assert Scan(u, false, first, rest) == " " + tailB by {
      assert u[0] == '_' && u[1..] == b;
    }
    assert Scan(a[1..] + u, false, first, rest) == MapChars(rest, a[1..]) + Scan(u, false, first, rest) by {
      if a[1..] == [] {
        assert a[1..] + u == u;
      } else {
        ScanSplit(a[1..], u, false, first, rest);
      }
    }
    assert Scan(a + "_" + b, true, first, rest) == [first(a[0])] + Scan(a[1..] + u, false, first, rest) by {
      var s := a + "_" + b;
      assert s[0] == a[0] && s[0] != '_' && s[1..] == a[1..] + u;
    }
    Regroup([first(a[0])], MapChars(rest, a[1..]), " ", [first(b[0])] + MapChars(rest, b[1..]));
  }

  lemma Regroup(x: string, y: string, z: string, w: string)
    ensures x + (y + (z + w)) == (x + y) + z + w
  {
  }

  /** A two-word enum name gets the same label on every page: each word's
      capital stays and its other letters are lowercased. */
  lemma TwoWordLabel(a: string, b: string)
    requires a != [] && b != [] && IsEnumName(a) && IsEnumName(b) && '_' !in a && '_' !in b
    ensures ConcernLabel(a + "_" + b) == ([a[0]] + Lower(a[1..])) + " " + ([b[0]] + Lower(b[1..]))
    ensures DisplayConcern(a + "_" + b) == ConcernLabel(a + "_" + b)
  {
    TwoWordScan(a, b, Keep, LowerChar);
    assert MapChars(LowerChar, a[1..]) == Lower(a[1..]);
    assert MapChars(LowerChar, b[1..]) == Lower(b[1..]);
    var c := a + "_" + b;
    assert IsEnumName(c) by {
      forall i | 0 <= i < |c| ensures 'A' <= c[i] <= 'Z' || c[i] == '_' {
        if i < |a| {
          assert c[i] == a[i];
        } else if i > |a| {
          assert c[i] == b[i - |a| - 1];
        }
      }
    }
    LabelsAgreeOnEnumNames(c);
  }

  /** "UNEVEN_TEXTURE" is shown as "Uneven Texture" by the admin pages and
      by the user dashboard. */
  lemma UnevenTextureLabel(a: string, b: string)
    requires a == "UNEVEN" && b == "TEXTURE"
    ensures a + "_" + b == "UNEVEN_TEXTURE"
    ensures ConcernLabel(a + "_" + b) == "Uneven Texture"
    ensures DisplayConcern(a + "_" + b) == "Uneven Texture"
  {
    TwoWordLabel(a, b);
    UnevenWord(a);
    TextureWord(b);
    JoinedWords(a, b, [a[0]] + Lower(a[1..]), [b[0]] + Lower(b[1..]));
  }

  lemma JoinedWords(a: string, b: string, u: string, t: string)
    requires a == "UNEVEN" && b == "TEXTURE" && u == "Uneven" && t == "Texture"
    ensures a + "_" + b == "UNEVEN_TEXTURE"
    ensures u + " " + t == "Uneven Texture"
  {
  }

  lemma UnevenWord(a: string)
    requires a == "UNEVEN"
    ensures [a[0]] + Lower(a[1..]) == "Uneven"
  {
    assert a[1..] == "NEVEN";
  }

  lemma TextureWord(b: string)
    requires b == "TEXTURE"
    ensures [b[0]] + Lower(b[1..]) == "Texture"
  {
    assert b[1..] == "EXTURE";
  }

  /** `Scan` over a word without "_" followed by anything. */
  lemma {:induction false} ScanSplit(a: string, b: string, atStart: bool, first: char -> char, rest: char -> char)
    requires '_' !in a && a != [] && !atStart
    ensures Scan(a + b, atStart, first, rest) == MapChars(rest, a) + Scan(b, false, first, rest)
    decreases |a|
  {
    assert (a + b)[0] == a[0];
    assert (a + b)[1..] == a[1..] + b;
    if |a| == 1 {
      assert a[1..] + b == b;
    } else {
      ScanSplit(a[1..], b, false, first, rest);
    }
    assert MapChars(rest, a) == [rest(a[0])] + MapChars(rest, a[1..]);
  }

  function JoinLabels(cs: seq<string>): (parts: seq<string>)
    ensures |parts| == |cs|
    ensures forall i :: 0 <= i < |cs| ==> parts[i] == DisplayConcern(cs[i])
  {
    seq(|cs|, i requires 0 <= i < |cs| => DisplayConcern(cs[i]))
  }

  const NoConcerns: string := "No concerns listed"

  /** `formatConcerns`: `None` is a value that is not an array. */
  function FormatConcerns(concerns: Option<seq<string>>): (r: string)
    ensures concerns.None? ==> r == NoConcerns
    ensures concerns == Some([]) ==> r == ""
    ensures concerns.Some? && |concerns.value| == 1 ==> r == DisplayConcern(concerns.value[0])
  {
    match concerns
    case None => NoConcerns
    case Some(cs) => Join(JoinLabels(cs), ", ")
  }

  /** The formatted concerns are joined with ", " in input order: the first
      one, then the rest. */
  lemma FormatConcernsInOrder(cs: seq<string>)
    requires |cs| >= 2
    ensures FormatConcerns(Some(cs)) == DisplayConcern(cs[0]) + ", " + FormatConcerns(Some(cs[1..]))
  {
    assert JoinLabels(cs)[1..] == JoinLabels(cs[1..]);
  }
}
