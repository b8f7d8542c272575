/** Small pieces of JavaScript behaviour that several components rely on:
    optional values, media records, `String.prototype.trim`, `split`/`join`
    on one separator character, `includes`, and number-to-text conversion. */
module Common {

  datatype Option<+T> = None | Some(value: T)

  datatype Result<+T, +E> = Ok(value: T) | Err(error: E)

  /** One entry of a venue's `media` list: `{ url, alt }`. */
  datatype Image = Image(url: string, alt: string)

  /** A form field that starts out as text (an empty input) and holds a
      number once the user has typed into a numeric input. */
  datatype Scalar = Text(text: string) | Number(num: int)
  {
    /** JavaScript truthiness: "" and 0 are falsy, everything else is truthy. */
    predicate Truthy()
    {
      match this
      case Text(s) => s != ""
      case Number(n) => n != 0
    }
  }

  /** `x || fallback` for a string: the empty string is falsy. */
  function OrElse(s: string, fallback: string): (r: string)
    ensures s != "" ==> r == s
    ensures s == "" ==> r == fallback
  {
    if s != "" then s else fallback
  }

  /** The characters `String.prototype.trim` removes: white space and line terminators. */
  predicate IsJsWhitespace(c: char)
  {
    c == ' ' || c == '\t' || c == '\n' || c == '\r' || c == '\U{000B}' || c == '\U{000C}'
    || c == '\U{00A0}' || c == '\U{1680}' || ('\U{2000}' <= c <= '\U{200A}')
    || c == '\U{2028}' || c == '\U{2029}' || c == '\U{202F}' || c == '\U{205F}'
    || c == '\U{3000}' || c == '\U{FEFF}'
  }

  /** `s.trim() === ""`: the string holds white space only. */
  predicate IsBlank(s: string)
  {
    forall i :: 0 <= i < |s| ==> IsJsWhitespace(s[i])
  }

  /** `pieces.join(sep)`. */
  function Join(pieces: seq<string>, sep: char): string
  {
    if |pieces| == 0 then ""
    else if |pieces| == 1 then pieces[0]
    else pieces[0] + [sep] + Join(pieces[1..], sep)
  }

  /** `s.split(sep)` for a one-character separator: the pieces between
      separators, empty pieces included; there is always at least one piece. */
  function Split(s: string, sep: char): (pieces: seq<string>)
    ensures |pieces| >= 1
    ensures forall p :: p in pieces ==> sep !in p
    ensures Join(pieces, sep) == s
  {
    if s == [] then [""]
    else
      var rest := Split(s[1..], sep);
      if s[0] == sep then [""] + rest
      else [[s[0]] + rest[0]] + rest[1..]
  }

  /** Splitting what `Join` glued back together gives the pieces again,
      provided no piece holds the separator. */
  lemma {:induction false} SplitJoin(pieces: seq<string>, sep: char)
    requires |pieces| >= 1
    requires forall p :: p in pieces ==> sep !in p
    ensures Split(Join(pieces, sep), sep) == pieces
  {
    var head := pieces[0];
    if |pieces| == 1 {
      SplitNoSeparator(head, sep);
    } else {
      SplitJoin(pieces[1..], sep);
      SplitPrefix(head, Join(pieces[1..], sep), sep);
    }
  }

  lemma {:induction false} SplitNoSeparator(s: string, sep: char)
    requires sep !in s
    ensures Split(s, sep) == [s]
  {
    if s != [] {
      SplitNoSeparator(s[1..], sep);
    }
  }

  /** A separator-free head followed by a separator: the head becomes the first piece. */
  lemma {:induction false} SplitPrefix(head: string, tail: string, sep: char)
    requires sep !in head
    ensures Split(head + [sep] + tail, sep) == [head] + Split(tail, sep)
  {
    if head == [] {
      assert head + [sep] + tail == [sep] + tail;
      assert ([sep] + tail)[1..] == tail;
    } else {
      assert (head + [sep] + tail)[1..] == head[1..] + [sep] + tail;
      SplitPrefix(head[1..], tail, sep);
      assert [head[0]] + head[1..] == head;
    }
  }

  /** Joining a prefix of the pieces gives a prefix of the joined whole. */
  lemma {:induction false} JoinPrefix(pieces: seq<string>, k: nat, sep: char)
    requires 1 <= k <= |pieces|
    ensures Join(pieces[..k], sep) <= Join(pieces, sep)
  {
    if k < |pieces| {
      assert |pieces| >= 2;
      if k == 1 {
        assert pieces[..1] == [pieces[0]];
      } else {
        JoinPrefix(pieces[1..], k - 1, sep);
        assert pieces[..k][1..] == pieces[1..][..k - 1];
      }
    } else {
      assert pieces[..k] == pieces;
    }
  }

  /** `.filter((x) => x)` on strings: the empty strings are dropped, the rest keep their order. */
  function NonEmpty(pieces: seq<string>): (r: seq<string>)
    ensures forall s :: s in r ==> s != "" && s in pieces
    ensures forall s :: s in pieces && s != "" ==> s in r
  {
    if pieces == [] then []
    else (if pieces[0] == "" then [] else [pieces[0]]) + NonEmpty(pieces[1..])
  }

  lemma {:induction false} NonEmptyKeeps(pieces: seq<string>)
    requires forall s :: s in pieces ==> s != ""
    ensures NonEmpty(pieces) == pieces
  {
    if pieces != [] {
      assert forall s :: s in pieces[1..] ==> s in pieces;
      assert pieces[0] in pieces;
      NonEmptyKeeps(pieces[1..]);
      assert [pieces[0]] + pieces[1..] == pieces;
    }
  }

  /** One step of `Split`: the first character either ends the first piece or joins it. */
  lemma SplitStep(x: string, sep: char)
    requires x != []
    ensures x[0] == sep ==> Split(x, sep) == [""] + Split(x[1..], sep)
    ensures x[0] != sep ==>
              Split(x, sep) == [[x[0]] + Split(x[1..], sep)[0]] + Split(x[1..], sep)[1..]
  {
  }

  /** Splitting at one separator splits the two sides independently: the
      pieces of `a` are followed by the pieces of `b`. */
  lemma {:induction false} SplitConcat(a: string, b: string, sep: char)
    ensures Split(a + [sep] + b, sep) == Split(a, sep) + Split(b, sep)
  {
    var x := a + [sep] + b;
    assert x != [];
    if a == [] {
      assert x[0] == sep;
      assert x[1..] == b;
      SplitStep(x, sep);
    } else {
      assert x[0] == a[0];
      assert x[1..] == a[1..] + [sep] + b;
      SplitConcat(a[1..], b, sep);
      SplitStep(x, sep);
      SplitStep(a, sep);
      HeadOfAppend(Split(a[1..], sep), Split(b, sep));
    }
  }

  /** Putting a head in front of a concatenation, or growing the first element. */
  lemma HeadOfAppend(l: seq<string>, r: seq<string>)
    requires l != []
    ensures [""] + (l + r) == ([""] + l) + r
    ensures forall h :: [h + (l + r)[0]] + (l + r)[1..] == ([h + l[0]] + l[1..]) + r
  {
    assert (l + r)[0] == l[0];
    assert (l + r)[1..] == l[1..] + r;
  }

  /** Filtering a concatenation filters each part: order and repetitions are kept. */
  lemma {:induction false} NonEmptyAppend(a: seq<string>, b: seq<string>)
    ensures NonEmpty(a + b) == NonEmpty(a) + NonEmpty(b)
  {
    if a != [] {
      assert (a + b)[0] == a[0];
      assert (a + b)[1..] == a[1..] + b;
      NonEmptyAppend(a[1..], b);
    } else {
      assert a + b == b;
    }
  }

  /** A single string is kept exactly when it is non-empty. */
  lemma NonEmptySingle(s: string)
    ensures NonEmpty([s]) == if s == "" then [] else [s]
  {
    assert [s][1..] == [];
  }

  /** `s.includes(sub)`. */
  predicate Contains(s: string, sub: string)
    decreases |s|
  {
    if |s| < |sub| then false
    else s[..|sub|] == sub || Contains(s[1..], sub)
  }

  /** The number a string of decimal digits denotes, most significant first. */
  function DigitsValue(s: string): nat
  {
    if s == [] then 0
    else
      var d := s[|s| - 1] as int - '0' as int;
      DigitsValue(s[..|s| - 1]) * 10 + (if 0 <= d then d else 0)
  }

  /** The decimal digits of `n`, as `String(n)` writes a non-negative integer. */
  function NatToString(n: nat): (r: string)
    ensures |r| >= 1
    ensures forall i :: 0 <= i < |r| ==> '0' <= r[i] <= '9'
    ensures n >= 10 ==> r[0] != '0'
    ensures DigitsValue(r) == n
  {
    if n < 10 then [DigitChar(n)]
    else
      var r := NatToString(n / 10) + [DigitChar(n % 10)];
      assert r[..|r| - 1] == NatToString(n / 10);
      r
  }

  function DigitChar(d: nat): (c: char)
    requires d < 10
    ensures '0' <= c <= '9'
    ensures c as int - '0' as int == d
  {
    ('0' as int + d) as char
  }

  /** `String(n)` for an integer: a leading '-' exactly for negative numbers,
      followed by the digits of its magnitude. */
  function IntToString(n: int): (r: string)
    ensures |r| >= 1
    ensures r[0] == '-' <==> n < 0
    ensures n < 0 ==> |r| >= 2 && DigitsValue(r[1..]) == -n
    ensures n >= 0 ==> DigitsValue(r) == n
  {
    if n < 0 then
      var r := "-" + NatToString(-n);
      assert r[1..] == NatToString(-n);
      r
    else NatToString(n)
  }
}
