/**
  The escaping applied to tag names before they go into a `syntax match`
  pattern: a backslash in front of each of `. * ^ $ / \ ~ [ ]`, every other
  character kept as it is (the regular expression `[.*^$/\\~\[\]]` with the
  replacement `\\\g<0>`, written here one character at a time).
 */
module Escape {

  /** The characters the plugin escapes. */
  predicate IsSpecial(c: char)
  {
    c == '.' || c == '*' || c == '^' || c == '$' || c == '/' ||
    c == '\\' || c == '~' || c == '[' || c == ']'
  }

  /** How many characters of `s` get escaped. */
  function CountSpecial(s: string): nat
  {
    if s == [] then 0 else (if IsSpecial(s[0]) then 1 else 0) + CountSpecial(s[1..])
  }

  /** The escape of one character. */
  function EscapeChar(c: char): string
  {
    if IsSpecial(c) then ['\\', c] else [c]
  }

  /** The escape of a whole name, character by character. */
  function Escape(s: string): (r: string)
    ensures |r| == |s| + CountSpecial(s)
  {
    if s == [] then [] else EscapeChar(s[0]) + Escape(s[1..])
  }

  /** Removes the backslash in front of each escaped character. */
  function Unescape(r: string): string
  {
    if r == [] then []
    else if r[0] == '\\' && |r| >= 2 then [r[1]] + Unescape(r[2..])
    else [r[0]] + Unescape(r[1..])
  }

  /** Removing the inserted backslashes gives back the original name. */
  lemma {:induction false} UnescapeEscape(s: string)
    ensures Unescape(Escape(s)) == s
  {
    if s != [] {
      UnescapeEscape(s[1..]);
      var r := Escape(s);
      if IsSpecial(s[0]) {
        assert r == ['\\', s[0]] + Escape(s[1..]);
        assert r[2..] == Escape(s[1..]);
      } else {
        assert r == [s[0]] + Escape(s[1..]);
        assert r[1..] == Escape(s[1..]);
      }
      assert s == [s[0]] + s[1..];
    }
  }

  /** Escaping works on each part of a name separately. */
  lemma {:induction false} EscapeAppend(a: string, b: string)
    ensures Escape(a + b) == Escape(a) + Escape(b)
  {
    if a != [] {
      assert (a + b)[0] == a[0];
      assert (a + b)[1..] == a[1..] + b;
      EscapeAppend(a[1..], b);
    } else {
      assert a + b == b;
    }
  }

  /** A name without special characters is left unchanged. */
  lemma {:induction false} EscapePlain(s: string)
    requires forall i :: 0 <= i < |s| ==> !IsSpecial(s[i])
    ensures Escape(s) == s
  {
    if s != [] {
      EscapePlain(s[1..]);
      assert s == [s[0]] + s[1..];
    }
  }

  /**
    In the escape, every special character stands right after a backslash
    that was inserted for it: reading the output from the left, a backslash
    is always followed by a special character, and a special character other
    than an escaping backslash is always preceded by one.
   */
  ghost predicate WellEscaped(r: string)
  {
    if r == [] then true
    else if r[0] == '\\' then |r| >= 2 && IsSpecial(r[1]) && WellEscaped(r[2..])
    else !IsSpecial(r[0]) && WellEscaped(r[1..])
  }

  lemma {:induction false} EscapeWellEscaped(s: string)
    ensures WellEscaped(Escape(s))
  {
    if s != [] {
      EscapeWellEscaped(s[1..]);
      var r := Escape(s);
      if IsSpecial(s[0]) {
        assert r == ['\\', s[0]] + Escape(s[1..]);
        assert r[2..] == Escape(s[1..]);
      } else {
        assert r == [s[0]] + Escape(s[1..]);
        assert r[1..] == Escape(s[1..]);
      }
    }
  }

  /** Every name of a list escaped, in the same order (`map(escape, names)`). */
  function EscapeAll(names: seq<string>): (r: seq<string>)
    ensures |r| == |names|
    ensures forall i :: 0 <= i < |names| ==> r[i] == Escape(names[i])
  {
    if names == [] then [] else [Escape(names[0])] + EscapeAll(names[1..])
  }
}
