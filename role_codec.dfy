/**
 * The text form of a captured role list in the mute table: the decimal ids
 * joined by commas (`",".join(map(str, ids))`), read back by splitting at the
 * commas and parsing each piece as an integer.
 */
module RoleCodec {
  import opened Options

  predicate IsDigit(c: char) {
    '0' <= c <= '9'
  }

  predicate AllDigits(s: string) {
    forall i :: 0 <= i < |s| ==> IsDigit(s[i])
  }

  function DigitChar(d: nat): (c: char)
    requires d < 10
    ensures IsDigit(c)
  {
    ('0' as int + d) as char
  }

  function DigitValue(c: char): (d: nat)
    requires IsDigit(c)
    ensures d < 10 && DigitChar(d) == c
  {
    c as int - '0' as int
  }

  /** `str(n)`: the decimal digits of `n`, most significant first. */
  function NatToString(n: nat): (s: string)
    ensures |s| >= 1 && AllDigits(s)
    decreases n
  {
    if n < 10 then [DigitChar(n)] else NatToString(n / 10) + [DigitChar(n % 10)]
  }

  /**
   * `int(s)` on the strings it can meet here: the value of a non-empty string
   * of decimal digits, None (where `int` raises) for anything else.
   */
  function ParseNat(s: string): (r: Option<nat>)
    ensures r.Some? <==> |s| > 0 && AllDigits(s)
  {
    if |s| == 0 || !IsDigit(s[|s| - 1]) then None
    else if |s| == 1 then Some(DigitValue(s[0]))
    else match ParseNat(s[..|s| - 1])
      case None => None
      case Some(v) => Some(v * 10 + DigitValue(s[|s| - 1]))
  }

  lemma {:induction false} ParseNatToString(n: nat)
    ensures ParseNat(NatToString(n)) == Some(n)
    decreases n
  {
    if n >= 10 {
      var s := NatToString(n);
      assert s[..|s| - 1] == NatToString(n / 10);
      ParseNatToString(n / 10);
    }
  }

  /** `",".join(parts)`. */
  function Join(parts: seq<string>): string {
    if |parts| == 0 then ""
    else if |parts| == 1 then parts[0]
    else parts[0] + "," + Join(parts[1..])
  }

  /** `s.split(",")`: the comma-free pieces between the commas, at least one. */
  function Split(s: string): (pieces: seq<string>)
    ensures |pieces| >= 1
    ensures forall i :: 0 <= i < |pieces| ==> ',' !in pieces[i]
  {
    if |s| == 0 then [""]
    else
      var rest := Split(s[1..]);
      if s[0] == ',' then [""] + rest
      else [[s[0]] + rest[0]] + rest[1..]
  }

  /** Joining the pieces of a split gives the string back. */
  lemma {:induction false} JoinSplit(s: string)
    ensures Join(Split(s)) == s
  {
    if |s| > 0 {
      var rest := Split(s[1..]);
      JoinSplit(s[1..]);
      if s[0] == ',' {
        assert ([""] + rest)[1..] == rest;
      } else {
        var first := [s[0]] + rest[0];
        assert ([first] + rest[1..])[1..] == rest[1..];
      }
    }
  }

  lemma {:induction false} SplitNoComma(a: string)
    requires ',' !in a
    ensures Split(a) == [a]
  {
    if |a| > 0 {
      assert ',' !in a[1..];
      SplitNoComma(a[1..]);
      assert [a[0]] + a[1..] == a;
    }
  }

  lemma {:induction false} SplitAtComma(a: string, b: string)
    requires ',' !in a
    ensures Split(a + "," + b) == [a] + Split(b)
  {
    if |a| == 0 {
      assert (a + "," + b)[1..] == b;
    } else {
      assert (a + "," + b)[1..] == a[1..] + "," + b;
      assert ',' !in a[1..];
      SplitAtComma(a[1..], b);
      assert [a[0]] + a[1..] == a;
    }
  }

  /** Splitting undoes joining, for a non-empty list of comma-free pieces. */
  lemma {:induction false} SplitJoin(parts: seq<string>)
    requires |parts| >= 1
    requires forall i :: 0 <= i < |parts| ==> ',' !in parts[i]
    ensures Split(Join(parts)) == parts
  {
    if |parts| == 1 {
      SplitNoComma(parts[0]);
    } else {
      SplitJoin(parts[1..]);
      SplitAtComma(parts[0], Join(parts[1..]));
      assert [parts[0]] + parts[1..] == parts;
    }
  }

  /** What `original_str.split(",") if original_str else []` yields. */
  function Pieces(s: string): seq<string> {
    if s == "" then [] else Split(s)
  }

  /** The ids parsed, in order, and whether every piece parsed. */
  datatype Decoded = Decoded(ids: seq<nat>, complete: bool)

  /**
   * Parses the pieces front to back and stops at the first piece `int` rejects:
   * the ids are those of the pieces before it.
   */
  function ParsePieces(pieces: seq<string>): (d: Decoded)
    ensures |d.ids| <= |pieces|
    ensures forall i :: 0 <= i < |d.ids| ==> ParseNat(pieces[i]) == Some(d.ids[i])
    ensures d.complete <==> |d.ids| == |pieces|
    ensures !d.complete ==> ParseNat(pieces[|d.ids|]).None?
  {
    if pieces == [] then Decoded([], true)
    else match ParseNat(pieces[0])
      case None => Decoded([], false)
      case Some(n) =>
        var rest := ParsePieces(pieces[1..]);
        Decoded([n] + rest.ids, rest.complete)
  }

  /** The stored text of a role-id list. */
  function Encode(ids: seq<nat>): (s: string)
    ensures s == "" <==> ids == []
  {
    var parts := seq(|ids|, i requires 0 <= i < |ids| => NatToString(ids[i]));
    assert |parts| >= 1 ==> |parts[0]| >= 1 && |Join(parts)| >= 1 by {
      if |parts| >= 2 {
        assert Join(parts) == parts[0] + "," + Join(parts[1..]);
      }
    }
    Join(parts)
  }

  /** The role-id list stored as `s`, or None when some piece is not a number. */
  function Decode(s: string): (r: Option<seq<nat>>)
    ensures r.Some? <==> forall i :: 0 <= i < |Pieces(s)| ==> ParseNat(Pieces(s)[i]).Some?
    ensures r.Some? ==> |r.value| == |Pieces(s)| && forall i :: 0 <= i < |r.value| ==> ParseNat(Pieces(s)[i]) == Some(r.value[i])
  {
    var d := ParsePieces(Pieces(s));
    if d.complete then Some(d.ids) else None
  }

  /** A stored role list reads back unchanged and in the same order. */
  lemma {:induction false} DecodeEncode(ids: seq<nat>)
    ensures Decode(Encode(ids)) == Some(ids)
  {
    var parts := seq(|ids|, i requires 0 <= i < |ids| => NatToString(ids[i]));
    assert Encode(ids) == Join(parts);
    if ids != [] {
      forall i | 0 <= i < |parts| ensures ',' !in parts[i] {
        assert AllDigits(parts[i]);
      }
      SplitJoin(parts);
      assert Pieces(Encode(ids)) == parts;
      ParsePiecesOfNumbers(ids, parts);
    }
  }

  lemma {:induction false} ParsePiecesOfNumbers(ids: seq<nat>, parts: seq<string>)
    requires |parts| == |ids|
    requires forall i :: 0 <= i < |ids| ==> parts[i] == NatToString(ids[i])
    ensures ParsePieces(parts) == Decoded(ids, true)
  {
    if ids != [] {
      ParseNatToString(ids[0]);
      ParsePiecesOfNumbers(ids[1..], parts[1..]);
      assert [ids[0]] + ids[1..] == ids;
    }
  }

  /** The empty list is stored as the empty string, which reads back as the empty list. */
  lemma EmptyRoleList()
    ensures Encode([]) == "" && Decode("") == Some([])
  {
  }
}
