/** Record framing of the device stream. A received chunk reaches the
    connectors as the text of Python's `str(raw_bytes)`: `b'` + the escaped
    bytes + `'`. The connectors drop the first two and the last three
    characters and split the rest on the two-character sequence backslash-r,
    which is how the byte 13 record separator appears in that text. */
module Framing {
  import Seqs

  /** The two characters backslash and `r`. */
  const Separator: string := ['\\', 'r']

  /** No occurrence of the separator inside `s`. */
  predicate NoSeparator(s: string)
    decreases |s|
  {
    |s| < 2 || (!(s[0] == '\\' && s[1] == 'r') && NoSeparator(s[1..]))
  }

  /** Python `text[2:-3]`: slicing clamps, so texts of at most five
      characters give the empty string. */
  function StripRepr(text: string): (r: string)
    ensures |r| == if |text| >= 5 then |text| - 5 else 0
    ensures forall i | 0 <= i < |r| :: r[i] == text[i + 2]
  {
    if |text| >= 5 then text[2..|text| - 3] else []
  }

  /** The repr text of a chunk whose bytes end with the record separator. */
  function ReprOf(payload: string): string {
    "b'" + payload + Separator + "'"
  }

  /** Stripping undoes the repr wrapping of a separator-terminated chunk. */
  lemma StripReprOfRepr(payload: string)
    ensures StripRepr(ReprOf(payload)) == payload
  {
    var t := ReprOf(payload);
    assert t[2..|t| - 3] == payload;
  }

  /** The segments joined back with the separator between them. */
  function Join(parts: seq<string>): string
    requires |parts| >= 1
    decreases |parts|
  {
    if |parts| == 1 then parts[0] else parts[0] + Separator + Join(parts[1..])
  }

  lemma JoinExtendFirst(c: char, parts: seq<string>)
    requires |parts| >= 1
    ensures Join([[c] + parts[0]] + parts[1..]) == [c] + Join(parts)
  {
    var q := [[c] + parts[0]] + parts[1..];
    assert q[1..] == parts[1..];
    if |parts| > 1 {
      Seqs.AppendAssoc([c] + parts[0], Separator, Join(parts[1..]));
      Seqs.AppendAssoc([c], parts[0], Separator + Join(parts[1..]));
      Seqs.AppendAssoc(parts[0], Separator, Join(parts[1..]));
    }
  }

  /** Python `s.split('\\r')`: scans left to right and cuts at every
      non-overlapping occurrence of the separator. It always yields at
      least one segment (the empty text gives one empty segment); joining
      the segments back gives `s` again, and no segment holds the
      separator. */
  function Split(s: string): (r: seq<string>)
    ensures |r| >= 1
    ensures Join(r) == s
    ensures forall i | 0 <= i < |r| :: NoSeparator(r[i])
    ensures r[0] <= s
    decreases |s|
  {
    if |s| < 2 then [s]
    else if s[0] == '\\' && s[1] == 'r' then
      var rest := Split(s[2..]);
      assert Join([[]] + rest) == Separator + Join(rest) by {
        assert ([[]] + rest)[1..] == rest;
      }
      assert s == Separator + s[2..];
      [[]] + rest
    else
      var rest := Split(s[1..]);
      JoinExtendFirst(s[0], rest);
      assert s == [s[0]] + s[1..];
      var first := [s[0]] + rest[0];
      assert NoSeparator(first) by {
        assert first[1..] == rest[0];
        if |first| >= 2 {
          assert first[1] == rest[0][0] == s[1];
        }
      }
      var r := [first] + rest[1..];
      assert forall i | 1 <= i < |r| :: r[i] == rest[i];
      r
  }

  /** A separator-free text is a single segment. */
  lemma {:induction false} SplitSingle(p: string)
    requires NoSeparator(p)
    ensures Split(p) == [p]
    decreases |p|
  {
    if |p| >= 2 {
      assert NoSeparator(p[1..]);
      SplitSingle(p[1..]);
      assert [p[0]] + p[1..] == p;
    }
  }

  /** Split at a character that does not start the separator. */
  lemma SplitPlainStep(s: string)
    requires |s| >= 2 && !(s[0] == '\\' && s[1] == 'r')
    ensures Split(s) == [[s[0]] + Split(s[1..])[0]] + Split(s[1..])[1..]
  {
  }

  /** A leading separator cuts off an empty segment. */
  lemma SplitLeadingSeparator(t: string)
    ensures Split(Separator + t) == [[]] + Split(t)
  {
    var s := Separator + t;
    assert s[0] == '\\' && s[1] == 'r';
    assert s[2..] == t;
  }

  /** The text `p + Separator + t` for a non-empty separator-free `p`
      starts with a plain character followed by the same shape. */
  lemma CutsFirstShape(p: string, t: string)
    requires |p| > 0 && NoSeparator(p)
    ensures var s := p + Separator + t;
            && |s| >= 2 && s[0] == p[0] && !(s[0] == '\\' && s[1] == 'r')
            && s[1..] == p[1..] + Separator + t
  {
    var s := p + Separator + t;
    if |p| == 1 {
      assert s[1] == '\\';
    } else {
      assert s[1] == p[1];
    }
  }

  /** A separator-free segment followed by the separator is cut off whole. */
  lemma {:induction false} SplitCutsFirst(p: string, t: string)
    requires NoSeparator(p)
    ensures Split(p + Separator + t) == [p] + Split(t)
    decreases |p|
  {
    if |p| == 0 {
      assert p + Separator + t == Separator + t;
      SplitLeadingSeparator(t);
    } else {
      var s := p + Separator + t;
      assert NoSeparator(p[1..]);
      SplitCutsFirst(p[1..], t);
      CutsFirstShape(p, t);
      SplitPlainStep(s);
      var rest := Split(s[1..]);
      assert rest == [p[1..]] + Split(t);
      assert [rest[0]] + rest[1..] == rest;
      assert [p[0]] + p[1..] == p;
    }
  }

  /** Splitting the join of separator-free segments gives the segments back:
      together with `Join(Split(s)) == s` this makes Split and Join inverse. */
  lemma {:induction false} SplitJoin(parts: seq<string>)
    requires |parts| >= 1
    requires forall i | 0 <= i < |parts| :: NoSeparator(parts[i])
    ensures Split(Join(parts)) == parts
    decreases |parts|
  {
    if |parts| == 1 {
      SplitSingle(parts[0]);
    } else {
      SplitJoin(parts[1..]);
      SplitCutsFirst(parts[0], Join(parts[1..]));
      assert [parts[0]] + parts[1..] == parts;
    }
  }

  /** The segments of one received chunk. */
  function Frame(text: string): (r: seq<string>)
    ensures |r| >= 1
    ensures Join(r) == StripRepr(text)
  {
    Split(StripRepr(text))
  }
}
