/** The string methods the weather block applies to a condition code:
    `lower()`, `replace(old, new)` for a single character, and `title()`.
    Case mapping covers the ASCII letters only. */
module Strings {

  predicate IsUpper(c: char)
  {
    'A' <= c <= 'Z'
  }

  predicate IsLower(c: char)
  {
    'a' <= c <= 'z'
  }

  /** A letter that has case, the only characters `title()` treats as word characters. */
  predicate IsCased(c: char)
  {
    IsUpper(c) || IsLower(c)
  }

  function ToLower(c: char): (r: char)
    ensures !IsUpper(r)
    ensures IsCased(r) == IsCased(c)
  {
    if IsUpper(c) then (c as int + 32) as char else c
  }

  function ToUpper(c: char): (r: char)
    ensures !IsLower(r)
    ensures IsCased(r) == IsCased(c)
  {
    if IsLower(c) then (c as int - 32) as char else c
  }

  /** `s.lower()` */
  function Lower(s: string): (r: string)
    ensures |r| == |s|
  {
    if s == [] then [] else [ToLower(s[0])] + Lower(s[1..])
  }

  /** `s.replace(c, "")` */
  function Without(s: string, c: char): string
  {
    if s == [] then [] else (if s[0] == c then [] else [s[0]]) + Without(s[1..], c)
  }

  /** `s.replace(a, b)` for single characters `a` and `b`. */
  function Replace(s: string, a: char, b: char): (r: string)
    ensures |r| == |s|
  {
    if s == [] then [] else [if s[0] == a then b else s[0]] + Replace(s[1..], a, b)
  }

  /** `lower()` maps every character on its own. */
  lemma {:induction false} LowerAt(s: string)
    ensures forall i :: 0 <= i < |s| ==> Lower(s)[i] == ToLower(s[i])
  {
    if s != [] {
      LowerAt(s[1..]);
      assert forall i :: 1 <= i < |s| ==> Lower(s)[i] == Lower(s[1..])[i - 1];
    }
  }

  /** Removing a character leaves none of it and adds nothing new. */
  lemma {:induction false} WithoutOmits(s: string, c: char)
    ensures c !in Without(s, c)
    ensures |Without(s, c)| <= |s|
    ensures forall x :: x in Without(s, c) ==> x in s
  {
    if s != [] {
      WithoutOmits(s[1..], c);
    }
  }

  /** `replace(a, b)` maps every character on its own. */
  lemma {:induction false} ReplaceAt(s: string, a: char, b: char)
    ensures forall i :: 0 <= i < |s| ==> Replace(s, a, b)[i] == if s[i] == a then b else s[i]
  {
    if s != [] {
      ReplaceAt(s[1..], a, b);
      assert forall i :: 1 <= i < |s| ==> Replace(s, a, b)[i] == Replace(s[1..], a, b)[i - 1];
    }
  }

  /** `title()` from a point where the previous character was (or was not) cased:
      a character after a cased one is lowered, any other is raised. */
  function TitleFrom(s: string, afterCased: bool): (r: string)
    ensures |r| == |s|
  {
    if s == [] then []
    else [if afterCased then ToLower(s[0]) else ToUpper(s[0])] + TitleFrom(s[1..], IsCased(s[0]))
  }

  /** `s.title()` */
  function Title(s: string): string
  {
    TitleFrom(s, false)
  }

  /** `title()` character by character: a character after a cased one is
      lowered, any other is raised. */
  lemma {:induction false} TitleFromAt(s: string, afterCased: bool)
    ensures forall i :: 0 <= i < |s| ==>
      TitleFrom(s, afterCased)[i] ==
        if (if i == 0 then afterCased else IsCased(s[i - 1])) then ToLower(s[i]) else ToUpper(s[i])
  {
    if s != [] {
      var t, rest := TitleFrom(s, afterCased), s[1..];
      TitleFromAt(rest, IsCased(s[0]));
      assert t[1..] == TitleFrom(rest, IsCased(s[0]));
      forall i | 1 <= i < |s|
        ensures t[i] == if IsCased(s[i - 1]) then ToLower(s[i]) else ToUpper(s[i])
      {
        assert t[i] == TitleFrom(rest, IsCased(s[0]))[i - 1];
        assert rest[i - 1] == s[i];
        if i > 1 {
          assert rest[i - 2] == s[i - 1];
        }
      }
    }
  }

  lemma {:induction false} TitleFromIdempotent(s: string, afterCased: bool)
    ensures TitleFrom(TitleFrom(s, afterCased), afterCased) == TitleFrom(s, afterCased)
  {
    if s != [] {
      var t := TitleFrom(s, afterCased);
      assert t[1..] == TitleFrom(s[1..], IsCased(s[0]));
      TitleFromIdempotent(s[1..], IsCased(s[0]));
    }
  }

  /** Title-casing a title-cased string changes nothing. */
  lemma TitleIdempotent(s: string)
    ensures Title(Title(s)) == Title(s)
  {
    TitleFromIdempotent(s, false);
  }

  /** The lowered string with a character removed holds no upper-case letter. */
  lemma WithoutOfLower(s: string, c: char)
    ensures forall i :: 0 <= i < |Without(Lower(s), c)| ==> !IsUpper(Without(Lower(s), c)[i])
  {
    LowerAt(s);
    WithoutOmits(Lower(s), c);
    var r := Without(Lower(s), c);
    forall i | 0 <= i < |r| ensures !IsUpper(r[i]) {
      assert r[i] in r;
      assert r[i] in Lower(s);
    }
  }

  /** Lowering a string without upper-case letters changes nothing. */
  lemma {:induction false} LowerOfLowered(s: string)
    requires forall i :: 0 <= i < |s| ==> !IsUpper(s[i])
    ensures Lower(s) == s
  {
    if s != [] {
      LowerOfLowered(s[1..]);
    }
  }

  /** `lower()` of a concatenation lowers each part. */
  lemma {:induction false} LowerConcat(a: string, b: string)
    ensures Lower(a + b) == Lower(a) + Lower(b)
  {
    if a != [] {
      assert (a + b)[1..] == a[1..] + b;
      LowerConcat(a[1..], b);
    } else {
      assert a + b == b;
    }
  }

  /** `replace(c, "")` of a concatenation removes `c` from each part. */
  lemma {:induction false} WithoutConcat(a: string, b: string, c: char)
    ensures Without(a + b, c) == Without(a, c) + Without(b, c)
  {
    if a != [] {
      assert (a + b)[1..] == a[1..] + b;
      WithoutConcat(a[1..], b, c);
    } else {
      assert a + b == b;
    }
  }

  /** Removing a character that is not there changes nothing. */
  lemma {:induction false} WithoutTwice(s: string, c: char)
    requires c !in s
    ensures Without(s, c) == s
  {
    if s != [] {
      WithoutTwice(s[1..], c);
    }
  }

  /** Removing the separator from two pieces free of it joined by it runs them together. */
  lemma {:induction false} WithoutJoined(a: string, b: string, c: char)
    requires c !in a && c !in b
    ensures Without(a + [c] + b, c) == a + b
  {
    var s := a + [c] + b;
    if a == [] {
      assert s[1..] == b;
      WithoutTwice(b, c);
    } else {
      assert s[1..] == a[1..] + [c] + b;
      WithoutJoined(a[1..], b, c);
    }
  }

  /** Replacing a character that is not there changes nothing. */
  lemma {:induction false} ReplaceAbsent(s: string, a: char, b: char)
    requires a !in s
    ensures Replace(s, a, b) == s
  {
    if s != [] {
      ReplaceAbsent(s[1..], a, b);
    }
  }
}
