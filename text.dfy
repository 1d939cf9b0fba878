/** Text helpers used when emitting the Coli program: indentation, decimal
    integers, separator-joined lists and the `[e0, e1, ...]` list format. */
module Text {

  /** do_indent(): one space per indentation unit; a non-positive level writes nothing. */
  function Spaces(n: int): (r: string)
    ensures |r| == if n <= 0 then 0 else n
    ensures forall i :: 0 <= i < |r| ==> r[i] == ' '
  {
    if n <= 0 then "" else Spaces(n - 1) + " "
  }

  /** Appending two texts one after the other appends their concatenation. */
  lemma AppendAssoc<T>(a: seq<T>, b: seq<T>, c: seq<T>)
    ensures a + b + c == a + (b + c)
  {
  }

  /** Appending to the empty text gives the appended text. */
  lemma AppendToEmpty(b: string)
    ensures "" + b == b
  {
  }

  function DigitChar(d: nat): char
    requires d < 10
  {
    "0123456789"[d]
  }

  /** The decimal digits of `n`, most significant first. */
  function Digits(n: nat): (r: string)
    ensures |r| > 0
    ensures forall i :: 0 <= i < |r| ==> '0' <= r[i] <= '9'
  {
    if n < 10 then [DigitChar(n)] else Digits(n / 10) + [DigitChar(n % 10)]
  }

  /** How an integer is written by an output stream: optional '-' and its digits. */
  function Decimal(n: int): (r: string)
    ensures |r| > 0
  {
    if n < 0 then "-" + Digits(-n) else Digits(n)
  }

  /** `xs` joined with `sep` between consecutive items. */
  function Join(xs: seq<string>, sep: string): string
    decreases |xs|
  {
    if |xs| == 0 then ""
    else if |xs| == 1 then xs[0]
    else Join(xs[..|xs| - 1], sep) + sep + xs[|xs| - 1]
  }

  /** The text a separator loop has built after its first `i` items: the joined
      prefix, followed by the separator when more items remain. */
  function JoinedPrefix(xs: seq<string>, sep: string, i: nat): string
    requires i <= |xs|
  {
    Join(xs[..i], sep) + (if 0 < i < |xs| then sep else "")
  }

  /** One step of the separator loop `out << xs[i]; if (i != n - 1) out << sep;`. */
  lemma JoinedPrefixStep(xs: seq<string>, sep: string, i: nat)
    requires i < |xs|
    ensures JoinedPrefix(xs, sep, i + 1)
         == JoinedPrefix(xs, sep, i) + xs[i] + (if i != |xs| - 1 then sep else "")
  {
    assert xs[..i + 1][..i] == xs[..i];
    if i == 0 {
      assert xs[..1] == [xs[0]];
    }
  }

  /** The same step, behind a fixed opening text such as `{`. */
  lemma JoinedPrefixPush(open: string, xs: seq<string>, sep: string, i: nat)
    requires i < |xs|
    ensures open + JoinedPrefix(xs, sep, i + 1)
         == open + JoinedPrefix(xs, sep, i) + xs[i] + (if i != |xs| - 1 then sep else "")
  {
    JoinedPrefixStep(xs, sep, i);
  }

  lemma JoinedPrefixAll(xs: seq<string>, sep: string)
    ensures JoinedPrefix(xs, sep, |xs|) == Join(xs, sep)
  {
    assert xs[..|xs|] == xs;
  }

  /** Appending one item adds exactly one separator and the item. */
  lemma JoinSnoc(xs: seq<string>, x: string, sep: string)
    ensures Join(xs + [x], sep) == if xs == [] then x else Join(xs, sep) + sep + x
  {
    assert (xs + [x])[..|xs|] == xs;
  }

  /** The texts of `parts`, one after the other. */
  function Concat(parts: seq<string>): string {
    Join(parts, "")
  }

  /** Concatenating one more part appends exactly that part. */
  lemma ConcatSnoc(parts: seq<string>, x: string)
    ensures Concat(parts + [x]) == Concat(parts) + x
  {
    JoinSnoc(parts, x, "");
  }

  /** The concatenation of the first `k` parts is a prefix of the whole. */
  lemma {:induction false} ConcatPrefix(parts: seq<string>, k: nat)
    requires k <= |parts|
    ensures Concat(parts[..k]) <= Concat(parts)
    decreases |parts|
  {
    if k < |parts| {
      var init := parts[..|parts| - 1];
      assert parts == init + [parts[|parts| - 1]];
      ConcatSnoc(init, parts[|parts| - 1]);
      assert init[..k] == parts[..k];
      ConcatPrefix(init, k);
    } else {
      assert parts[..k] == parts;
    }
  }

  /** The first five parts, one after the other, begin the concatenation. */
  lemma ConcatFivePrefix(parts: seq<string>)
    requires 5 <= |parts|
    ensures parts[0] + parts[1] + parts[2] + parts[3] + parts[4] <= Concat(parts)
  {
    ConcatPrefix(parts, 5);
    assert parts[..1] == [] + [parts[0]];
    ConcatSnoc([], parts[0]);
    assert parts[..2] == parts[..1] + [parts[1]];
    ConcatSnoc(parts[..1], parts[1]);
    assert parts[..3] == parts[..2] + [parts[2]];
    ConcatSnoc(parts[..2], parts[2]);
    assert parts[..4] == parts[..3] + [parts[3]];
    ConcatSnoc(parts[..3], parts[3]);
    assert parts[..5] == parts[..4] + [parts[4]];
    ConcatSnoc(parts[..4], parts[4]);
  }

  /** A concatenation is at least as long as each of its parts. */
  lemma {:induction false} ConcatGrows(parts: seq<string>, k: nat)
    requires k < |parts|
    ensures |parts[k]| <= |Concat(parts)|
    decreases |parts|
  {
    if k < |parts| - 1 {
      var init := parts[..|parts| - 1];
      assert init[k] == parts[k];
      ConcatGrows(init, k);
    }
  }

  /** The template to_string: `[` items separated by `, ` `]`. */
  function ListText(items: seq<string>): string {
    "[" + Join(items, ", ") + "]"
  }

  /** The list text is bracketed, so it is never empty. */
  lemma ListTextBracketed(items: seq<string>)
    ensures |ListText(items)| >= 2
    ensures ListText(items)[0] == '[' && ListText(items)[|ListText(items)| - 1] == ']'
    ensures items == [] ==> ListText(items) == "[]"
  {
  }

  /** A list is exactly its first item followed by the list of the rest:
      the loop-built text agrees with the usual head-first reading. */
  lemma {:induction false} JoinCons(x: string, xs: seq<string>, sep: string)
    ensures Join([x] + xs, sep) == if xs == [] then x else x + sep + Join(xs, sep)
    decreases |xs|
  {
    if xs == [] {
      assert [x] + xs == [x];
    } else {
      var init, last := xs[..|xs| - 1], xs[|xs| - 1];
      assert xs == init + [last];
      assert [x] + xs == ([x] + init) + [last];
      JoinSnoc([x] + init, last, sep);
      JoinCons(x, init, sep);
      JoinSnoc(init, last, sep);
    }
  }

  /** Joining two non-empty lists puts one separator between their texts. */
  lemma {:induction false} JoinAppend(xs: seq<string>, ys: seq<string>, sep: string)
    ensures Join(xs + ys, sep)
         == if xs == [] then Join(ys, sep)
            else if ys == [] then Join(xs, sep)
            else Join(xs, sep) + sep + Join(ys, sep)
    decreases |ys|
  {
    if ys == [] {
      assert xs + ys == xs;
    } else if xs == [] {
      assert xs + ys == ys;
    } else {
      var init, last := ys[..|ys| - 1], ys[|ys| - 1];
      assert ys == init + [last];
      assert xs + ys == (xs + init) + [last];
      JoinSnoc(xs + init, last, sep);
      JoinAppend(xs, init, sep);
      JoinSnoc(init, last, sep);
    }
  }

  /** to_string: renders `items` as `[e0, e1, ...]`. */
  method ToString(items: seq<string>) returns (r: string)
    ensures r == ListText(items)
  {
    var ss := "[";
    var i := 0;
    while i < |items|
      invariant 0 <= i <= |items|
      invariant ss == "[" + JoinedPrefix(items, ", ", i)
    {
      JoinedPrefixStep(items, ", ", i);
      ss := ss + items[i];
      if i != |items| - 1 {
        ss := ss + ", ";
      }
      i := i + 1;
    }
    JoinedPrefixAll(items, ", ");
    r := ss + "]";
  }
}
