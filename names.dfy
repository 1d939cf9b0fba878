/** The identifier normaliser print_name: rewrites any Halide name into a
    C++ identifier that cannot collide with a reserved word. */
module Names {
  import opened Text

  // Character classes of the C locale.
  predicate IsAlpha(c: char) { 'a' <= c <= 'z' || 'A' <= c <= 'Z' }
  predicate IsDigit(c: char) { '0' <= c <= '9' }
  predicate IsAlnum(c: char) { IsAlpha(c) || IsDigit(c) }

  /** A character allowed in the emitted identifiers. */
  predicate IsWordChar(c: char) { IsAlnum(c) || c == '_' }

  /** What one input character becomes. */
  function CharText(c: char): (r: string)
    ensures |r| > 0 && forall i :: 0 <= i < |r| ==> IsWordChar(r[i])
  {
    if c == '.' then "_"
    else if c == '$' then "__"
    else if c != '_' && !IsAlnum(c) then "___"
    else [c]
  }

  /** The per-character rewrite of a whole name, without the leading underscore. */
  function Rewritten(s: string): (r: string)
    ensures forall i :: 0 <= i < |r| ==> IsWordChar(r[i])
    ensures |r| >= |s|
  {
    if s == [] then [] else Rewritten(s[..|s| - 1]) + CharText(s[|s| - 1])
  }

  /** print_name: a leading `_` before a name that starts with a letter, then the
      per-character rewrite. */
  function Normalized(name: string): string {
    (if |name| > 0 && IsAlpha(name[0]) then "_" else "") + Rewritten(name)
  }

  /** A name print_name leaves as it is: only letters, digits and underscores,
      and not starting with a letter. */
  predicate IsNormalName(n: string) {
    (forall i :: 0 <= i < |n| ==> IsWordChar(n[i])) && (|n| == 0 || !IsAlpha(n[0]))
  }

  lemma {:induction false} RewrittenAppend(a: string, b: string)
    ensures Rewritten(a + b) == Rewritten(a) + Rewritten(b)
    decreases |b|
  {
    if b == [] {
      assert a + b == a;
    } else {
      var init, last := b[..|b| - 1], b[|b| - 1];
      assert (a + b)[..|a + b| - 1] == a + init;
      assert (a + b)[|a + b| - 1] == last;
      RewrittenAppend(a, init);
      AppendAssoc(Rewritten(a), Rewritten(init), CharText(last));
    }
  }

  /** Word characters pass through unchanged. */
  lemma {:induction false} RewrittenWordChars(s: string)
    requires forall i :: 0 <= i < |s| ==> IsWordChar(s[i])
    ensures Rewritten(s) == s
    decreases |s|
  {
    if s != [] {
      RewrittenWordChars(s[..|s| - 1]);
      assert s == s[..|s| - 1] + [s[|s| - 1]];
    }
  }

  /** The rewrite of a non-empty name starts with the rewrite of its first character. */
  lemma RewrittenHead(s: string)
    requires |s| > 0
    ensures Rewritten(s) == CharText(s[0]) + Rewritten(s[1..])
  {
    assert s == [s[0]] + s[1..];
    RewrittenAppend([s[0]], s[1..]);
    assert Rewritten([s[0]]) == CharText(s[0]) by {
      assert [s[0]][..0] == [];
    }
  }

  /** print_name produces only letters, digits and underscores, never starts with
      a letter, and is empty only for the empty name. */
  lemma NormalizedIsNormal(name: string)
    ensures IsNormalName(Normalized(name))
    ensures |Normalized(name)| > 0 <==> |name| > 0
  {
    var r := Normalized(name);
    if |name| > 0 && !IsAlpha(name[0]) {
      RewrittenHead(name);
      assert r[0] == CharText(name[0])[0];
    }
  }

  /** A normal name is its own normalisation ... */
  lemma NormalizedFixesNormal(n: string)
    requires IsNormalName(n)
    ensures Normalized(n) == n
  {
    RewrittenWordChars(n);
  }

  /** ... and only a normal name is. */
  lemma NormalizedFixedIff(n: string)
    ensures Normalized(n) == n <==> IsNormalName(n)
  {
    if Normalized(n) == n {
      NormalizedIsNormal(n);
    } else if IsNormalName(n) {
      NormalizedFixesNormal(n);
    }
  }

  /** print_name is idempotent: this is why the renaming pre-pass can keep a node
      whose name is already normal. */
  lemma NormalizedIdempotent(name: string)
    ensures Normalized(Normalized(name)) == Normalized(name)
  {
    NormalizedIsNormal(name);
    NormalizedFixesNormal(Normalized(name));
  }

  /** print_name is not injective: `.` and `_` both become `_`. */
  lemma NormalizedCollides()
    ensures "x.y" != "x_y" && Normalized("x.y") == Normalized("x_y")
  {
    RewrittenWordChars("x_y");
    assert "x.y"[..2] == "x.";
    assert "x."[..1] == "x";
    assert "x"[..0] == "";
  }

  /** print_name, written as its source loop. */
  method PrintName(name: string) returns (r: string)
    ensures r == Normalized(name)
  {
    var oss := "";
    if |name| > 0 && IsAlpha(name[0]) {
      oss := oss + "_";
    }
    ghost var prefix := oss;
    var i := 0;
    while i < |name|
      invariant 0 <= i <= |name|
      invariant oss == prefix + Rewritten(name[..i])
    {
      assert name[..i + 1][..i] == name[..i];
      var c := name[i];
      AppendAssoc(prefix, Rewritten(name[..i]), CharText(c));
      if c == '.' {
        oss := oss + "_";
      } else if c == '$' {
        oss := oss + "__";
      } else if c != '_' && !IsAlnum(c) {
        oss := oss + "___";
      } else {
        oss := oss + [c];
      }
      i := i + 1;
    }
    assert name[..|name|] == name;
    r := oss;
  }
}
