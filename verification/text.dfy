/** The string operations the pages use: `toLowerCase`, `includes`,
    `startsWith`, and the slug rule `toLowerCase().replace(/\s+/g, '-')`.
    Lowercasing is modelled on the ASCII letters; whitespace is exactly the
    set of characters that the regular-expression class `\s` matches. */
module Text {
  import opened Seqs

  predicate IsUpper(c: char) { 'A' <= c <= 'Z' }

  function LowerChar(c: char): (r: char)
    ensures !IsUpper(r)
    ensures !IsUpper(c) ==> r == c
  {
    if IsUpper(c) then (c as int + 32) as char else c
  }

  /** `String.prototype.toLowerCase` restricted to ASCII letters. */
  function Lower(s: string): (r: string)
    ensures |r| == |s|
    ensures forall i :: 0 <= i < |s| ==> r[i] == LowerChar(s[i])
  {
    seq(|s|, i requires 0 <= i < |s| => LowerChar(s[i]))
  }

  predicate NoUpper(s: string) { forall i :: 0 <= i < |s| ==> !IsUpper(s[i]) }

  /** Lowercasing is a no-op exactly on strings without upper-case letters,
      and its results are such strings. */
  lemma LowerFixesExactlyLowercase(s: string)
    ensures NoUpper(Lower(s))
    ensures Lower(s) == s <==> NoUpper(s)
  {
    if Lower(s) == s {
      forall i | 0 <= i < |s| ensures !IsUpper(s[i]) {
        assert Lower(s)[i] == LowerChar(s[i]);
      }
    }
  }

  /** The characters matched by `\s`: the ASCII controls tab through
      carriage return, space, no-break space, the Ogham space mark, the
      en quad through hair space, the line and paragraph separators, the
      narrow no-break space, the medium mathematical space, the ideographic
      space and the byte-order mark. */
  predicate IsWhitespace(c: char)
  {
    ('\t' <= c <= '\r') || c == ' ' || c == '\U{A0}' || c == '\U{1680}' ||
    ('\U{2000}' <= c <= '\U{200A}') || c == '\U{2028}' || c == '\U{2029}' ||
    c == '\U{202F}' || c == '\U{205F}' || c == '\U{3000}' || c == '\U{FEFF}'
  }

  predicate NoWhitespace(s: string) { forall i :: 0 <= i < |s| ==> !IsWhitespace(s[i]) }

  /** `s.startsWith(p)`: `p` agrees with `s` character by character. */
  function StartsWith(s: string, p: string): (b: bool)
    ensures b <==> |p| <= |s| && forall i :: 0 <= i < |p| ==> s[i] == p[i]
  {
    |p| <= |s| && s[..|p|] == p
  }

  /** `s.includes(t)`: `t` occurs in `s` starting at some position. Every
      string includes `''`, and nothing includes a longer string. */
  function Contains(s: string, t: string): (b: bool)
    ensures t == "" ==> b
    ensures StartsWith(s, t) ==> b
    ensures b ==> |t| <= |s|
    decreases |s|
  {
    StartsWith(s, t) || (s != [] && Contains(s[1..], t))
  }

  /** `t` occurs in `s` at position `i`. */
  predicate OccursAt(s: string, t: string, i: int)
  {
    0 <= i <= |s| - |t| && s[i..i + |t|] == t
  }

  /** `includes` agrees with the positional definition of a substring. */
  lemma {:induction false} ContainsAt(s: string, t: string)
    ensures Contains(s, t) <==> exists i :: OccursAt(s, t, i)
  {
    if Contains(s, t) {
      if StartsWith(s, t) {
        assert OccursAt(s, t, 0);
      } else {
        ContainsAt(s[1..], t);
        var i :| OccursAt(s[1..], t, i);
        assert s[i + 1..i + 1 + |t|] == s[1..][i..i + |t|];
        assert OccursAt(s, t, i + 1);
      }
    }
    if exists i :: OccursAt(s, t, i) {
      var i :| OccursAt(s, t, i);
      if i > 0 {
        assert s[1..][i - 1..i - 1 + |t|] == s[i..i + |t|];
        assert OccursAt(s[1..], t, i - 1);
        ContainsAt(s[1..], t);
      } else {
        assert s[..|t|] == t;
      }
    }
  }

  /** Length of the whitespace run at the front of `s`: the run is maximal. */
  function WhitespaceRun(s: string): (n: nat)
    ensures n <= |s|
    ensures forall i :: 0 <= i < n ==> IsWhitespace(s[i])
    ensures n < |s| ==> !IsWhitespace(s[n])
  {
    if s == [] || !IsWhitespace(s[0]) then 0 else 1 + WhitespaceRun(s[1..])
  }

  /** `s.replace(/\s+/g, '-')`: every maximal run of whitespace becomes one
      hyphen; every other character is kept. */
  function Hyphenate(s: string): (r: string)
    ensures |r| <= |s|
    ensures r == [] <==> s == []
    decreases |s|
  {
    if s == [] then []
    else if IsWhitespace(s[0]) then
      var n := WhitespaceRun(s);
      "-" + Hyphenate(s[n..])
    else [s[0]] + Hyphenate(s[1..])
  }

  /** No whitespace is left after the replacement. */
  lemma {:induction false} HyphenateLeavesNoWhitespace(s: string)
    ensures NoWhitespace(Hyphenate(s))
    decreases |s|
  {
    if s != [] {
      var t := if IsWhitespace(s[0]) then s[WhitespaceRun(s)..] else s[1..];
      HyphenateLeavesNoWhitespace(t);
      var h := Hyphenate(t);
      assert Hyphenate(s) == (if IsWhitespace(s[0]) then "-" else [s[0]]) + h;
    }
  }

  /** Hyphenation introduces no character except the hyphen: an upper-case
      letter in the result was already in the input. */
  lemma {:induction false} HyphenateKeepsNoUpper(s: string)
    requires NoUpper(s)
    ensures NoUpper(Hyphenate(s))
    decreases |s|
  {
    if s != [] {
      var t := if IsWhitespace(s[0]) then s[WhitespaceRun(s)..] else s[1..];
      assert NoUpper(t) by {
        forall i | 0 <= i < |t| ensures !IsUpper(t[i]) {
          assert t[i] == s[|s| - |t| + i];
        }
      }
      HyphenateKeepsNoUpper(t);
    }
  }

  /** Replacing whitespace runs changes a string exactly when it has some
      whitespace. */
  lemma {:induction false} HyphenateFixesExactlyWhitespaceFree(s: string)
    ensures Hyphenate(s) == s <==> NoWhitespace(s)
    decreases |s|
  {
    HyphenateLeavesNoWhitespace(s);
    if s != [] && NoWhitespace(s) {
      assert !IsWhitespace(s[0]);
      HyphenateFixesExactlyWhitespaceFree(s[1..]);
      assert NoWhitespace(s[1..]) by {
        forall i | 0 <= i < |s[1..]| ensures !IsWhitespace(s[1..][i]) {
          assert s[1..][i] == s[i + 1];
        }
      }
      assert [s[0]] + s[1..] == s;
    }
  }

  /** A whitespace run that ends before a non-whitespace character (or the
      end of the string) becomes a single hyphen. */
  lemma {:induction false} HyphenateRun(w: string, b: string)
    requires w != [] && (b == [] || !IsWhitespace(b[0]))
    requires forall i :: 0 <= i < |w| ==> IsWhitespace(w[i])
    ensures Hyphenate(w + b) == "-" + Hyphenate(b)
  {
    var s := w + b;
    assert s[0] == w[0];
    forall i | 0 <= i < |w| ensures IsWhitespace(s[i]) {
      assert s[i] == w[i];
    }
    if b != [] {
      assert s[|w|] == b[0];
    }
    WhitespaceRunIsFirstGap(s, |w|);
    assert s[|w|..] == b;
  }

  /** Cutting a string right after a non-whitespace character splits no run,
      so the replacement works on the two pieces independently. */
  lemma {:induction false} HyphenateAppend(a: string, b: string)
    requires a == [] || !IsWhitespace(a[|a| - 1])
    ensures Hyphenate(a + b) == Hyphenate(a) + Hyphenate(b)
    decreases |a|, 1
  {
    if a == [] {
      assert a + b == b;
    } else if IsWhitespace(a[0]) {
      HyphenateAppendAfterRun(a, b);
    } else {
      HyphenateAppendAfterChar(a, b);
    }
  }

  /** `HyphenateAppend` when `a` opens with a whitespace run. */
  lemma {:induction false} HyphenateAppendAfterRun(a: string, b: string)
    requires a != [] && IsWhitespace(a[0]) && !IsWhitespace(a[|a| - 1])
    ensures Hyphenate(a + b) == Hyphenate(a) + Hyphenate(b)
    decreases |a|, 0
  {
    var n := WhitespaceRun(a);
    HyphenateAppendRun(a, b);
    var rest := a[n..];
    assert |rest| > 0 && rest[|rest| - 1] == a[|a| - 1];
    HyphenateAppend(rest, b);
    var x, y := Hyphenate(rest), Hyphenate(b);
    assert Hyphenate(a + b) == "-" + (x + y);
    assert Hyphenate(a) == "-" + x;
    assert "-" + (x + y) == ("-" + x) + y;
  }

  /** `HyphenateAppend` when `a` opens with a character that is kept. */
  lemma {:induction false} HyphenateAppendAfterChar(a: string, b: string)
    requires a != [] && !IsWhitespace(a[0]) && !IsWhitespace(a[|a| - 1])
    ensures Hyphenate(a + b) == Hyphenate(a) + Hyphenate(b)
    decreases |a|, 0
  {
    var rest := a[1..];
    SplitFirst(a, b);
    if rest != [] {
      assert rest[|rest| - 1] == a[|a| - 1];
    }
    HyphenateAppend(rest, b);
    HyphenateConsAppend(a[0], rest, b);
  }

  /** A kept character in front of `t` does not disturb a split of `t + b`. */
  lemma HyphenateConsAppend(c: char, t: string, b: string)
    requires !IsWhitespace(c)
    requires Hyphenate(t + b) == Hyphenate(t) + Hyphenate(b)
    ensures Hyphenate([c] + (t + b)) == Hyphenate([c] + t) + Hyphenate(b)
  {
    var u := t + b;
    HyphenateCons(c, u);
    HyphenateCons(c, t);
    var x, y := Hyphenate(t), Hyphenate(b);
    calc {
      Hyphenate([c] + u);
      [c] + Hyphenate(u);
      [c] + (x + y);
      { SeqAppendAssoc([c], x, y); }
      ([c] + x) + y;
      Hyphenate([c] + t) + y;
    }
  }

  lemma SplitFirst(a: string, b: string)
    requires a != []
    ensures a == [a[0]] + a[1..] && a + b == [a[0]] + (a[1..] + b)
  {
  }

  /** A non-whitespace character is copied through unchanged. */
  lemma HyphenateCons(c: char, t: string)
    requires !IsWhitespace(c)
    ensures Hyphenate([c] + t) == [c] + Hyphenate(t)
  {
    assert ([c] + t)[1..] == t;
  }

  /** The first step of `HyphenateAppend` when `a` opens with whitespace:
      the leading run of `a + b` lies inside `a`. */
  lemma {:induction false} HyphenateAppendRun(a: string, b: string)
    requires a != [] && IsWhitespace(a[0]) && !IsWhitespace(a[|a| - 1])
    ensures WhitespaceRun(a) < |a|
    ensures Hyphenate(a + b) == "-" + Hyphenate(a[WhitespaceRun(a)..] + b)
    ensures Hyphenate(a) == "-" + Hyphenate(a[WhitespaceRun(a)..])
  {
    var s := a + b;
    var n := WhitespaceRun(a);
    assert !IsWhitespace(a[|a| - 1]);
    assert n < |a|;
    forall i | 0 <= i < n ensures IsWhitespace(s[i]) {
      assert s[i] == a[i];
    }
    assert s[n] == a[n];
    WhitespaceRunIsFirstGap(s, n);
    assert s[0] == a[0];
    assert s[n..] == a[n..] + b;
  }

  /** The run length is the first position that is not whitespace. */
  lemma {:induction false} WhitespaceRunIsFirstGap(s: string, n: nat)
    requires n <= |s| && (n < |s| ==> !IsWhitespace(s[n]))
    requires forall i :: 0 <= i < n ==> IsWhitespace(s[i])
    ensures WhitespaceRun(s) == n
  {
    if n > 0 {
      if n < |s| {
        assert s[1..][n - 1] == s[n];
      }
      WhitespaceRunIsFirstGap(s[1..], n - 1);
    }
  }

  /** The slug derived from a page title. */
  function Slugify(title: string): (slug: string)
    ensures NoWhitespace(slug)
    ensures NoUpper(slug)
    ensures |slug| <= |title|
    ensures slug == [] <==> title == []
  {
    var lowered := Lower(title);
    LowerFixesExactlyLowercase(title);
    HyphenateKeepsNoUpper(lowered);
    HyphenateLeavesNoWhitespace(lowered);
    Hyphenate(lowered)
  }

  /** Deriving a slug from a derived slug changes nothing. */
  lemma SlugifyIdempotent(title: string)
    ensures Slugify(Slugify(title)) == Slugify(title)
  {
    var s := Slugify(title);
    LowerFixesExactlyLowercase(s);
    HyphenateFixesExactlyWhitespaceFree(s);
  }
}
