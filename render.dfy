/**
 * The two read-only renderings of a query buffer, identical in src/Builder.ts and
 * src/Gremlin.ts: `toString` (`replace(/\s+/g, '').trim()`) and `raw`
 * (`replace(/\)\./g, ').\n')`).
 */
module Render {

  /** ECMAScript's `\s`: the WhiteSpace and LineTerminator code points. */
  predicate IsWhitespace(c: char) {
    c == '\t' || c == '\n' || c == '\U{000B}' || c == '\U{000C}' || c == '\r' || c == ' '
    || c == '\U{00A0}' || c == '\U{1680}' || ('\U{2000}' <= c <= '\U{200A}')
    || c == '\U{2028}' || c == '\U{2029}' || c == '\U{202F}' || c == '\U{205F}'
    || c == '\U{3000}' || c == '\U{FEFF}'
  }

  predicate NoWhitespace(s: string) {
    forall i :: 0 <= i < |s| ==> !IsWhitespace(s[i])
  }

  /**
   * `toString`: every whitespace character deleted, the others kept in order.
   * The trailing `trim()` has nothing left to remove.
   */
  function Compact(s: string): string
    decreases |s|
  {
    if s == [] then []
    else (if IsWhitespace(s[0]) then [] else [s[0]]) + Compact(s[1..])
  }

  /** No whitespace is left, the text never grows, and text without whitespace is left alone. */
  lemma CompactSpec(s: string)
    ensures NoWhitespace(Compact(s))
    ensures |Compact(s)| <= |s|
    ensures NoWhitespace(s) ==> Compact(s) == s
  {
    CompactClean(s);
    if NoWhitespace(s) {
      CompactKeepsClean(s);
    }
  }

  lemma {:induction false} CompactClean(s: string)
    ensures NoWhitespace(Compact(s)) && |Compact(s)| <= |s|
    decreases |s|
  {
    if s != [] {
      CompactClean(s[1..]);
      var h, t := if IsWhitespace(s[0]) then [] else [s[0]], Compact(s[1..]);
      assert Compact(s) == h + t;
      forall i | 0 <= i < |h + t|
        ensures !IsWhitespace((h + t)[i])
      {
        if i < |h| {
          assert (h + t)[i] == s[0];
        } else {
          assert (h + t)[i] == t[i - |h|];
        }
      }
    }
  }

  lemma {:induction false} CompactKeepsClean(s: string)
    requires NoWhitespace(s)
    ensures Compact(s) == s
    decreases |s|
  {
    if s != [] {
      assert !IsWhitespace(s[0]);
      assert NoWhitespace(s[1..]) by {
        forall i | 0 <= i < |s| - 1
          ensures !IsWhitespace(s[1..][i])
        {
          assert s[1..][i] == s[i + 1];
        }
      }
      CompactKeepsClean(s[1..]);
      assert s == [s[0]] + s[1..];
    }
  }

  /** `raw`: a line break after every `).`, scanning left to right as a global replace does. */
  function Pretty(s: string): (r: string)
    ensures |r| >= |s|
    ensures |s| > 0 ==> |r| > 0 && r[0] == s[0]
    decreases |s|
  {
    if |s| >= 2 && s[0] == ')' && s[1] == '.' then ").\n" + Pretty(s[2..])
    else if s == [] then []
    else [s[0]] + Pretty(s[1..])
  }

  /** Deletes the line break that directly follows each `).`: the inverse of `Pretty`. */
  function Unpretty(t: string): string
    decreases |t|
  {
    if |t| >= 3 && t[0] == ')' && t[1] == '.' && t[2] == '\n' then ")." + Unpretty(t[3..])
    else if t == [] then []
    else [t[0]] + Unpretty(t[1..])
  }

  /** A break after every `).`: wherever `raw`'s text shows `).`, a line break follows. */
  predicate BreaksAfterClosing(r: string) {
    forall i :: 0 <= i < |r| - 1 && r[i] == ')' && r[i + 1] == '.' ==> i + 2 < |r| && r[i + 2] == '\n'
  }

  /** `raw` breaks the line after every `).` it leaves in the text. */
  lemma {:induction false} PrettyBreaksAfterClosing(s: string)
    ensures BreaksAfterClosing(Pretty(s))
    decreases |s|
  {
    var r := Pretty(s);
    if |s| >= 2 && s[0] == ')' && s[1] == '.' {
      PrettyBreaksAfterClosing(s[2..]);
      var t := Pretty(s[2..]);
      assert r == ").\n" + t;
      forall i | 0 <= i < |r| - 1 && r[i] == ')' && r[i + 1] == '.'
        ensures i + 2 < |r| && r[i + 2] == '\n'
      {
        if i >= 3 {
          assert r[i] == t[i - 3] && r[i + 1] == t[i - 2];
          assert r[i + 2] == t[i - 1];
        }
      }
    } else if s != [] {
      PrettyBreaksAfterClosing(s[1..]);
      var t := Pretty(s[1..]);
      assert r == [s[0]] + t;
      forall i | 0 <= i < |r| - 1 && r[i] == ')' && r[i + 1] == '.'
        ensures i + 2 < |r| && r[i + 2] == '\n'
      {
        if i > 0 {
          assert r[i] == t[i - 1] && r[i + 1] == t[i];
          assert r[i + 2] == t[i + 1];
        }
      }
    }
  }

  /** Removing the inserted line breaks from `raw` gives back the buffer. */
  lemma {:induction false} UnprettyPretty(s: string)
    ensures Unpretty(Pretty(s)) == s
    decreases |s|
  {
    if |s| >= 2 && s[0] == ')' && s[1] == '.' {
      var t := Pretty(s);
      assert t == ").\n" + Pretty(s[2..]);
      assert t[3..] == Pretty(s[2..]);
      UnprettyPretty(s[2..]);
      assert s == ")." + s[2..];
    } else if s != [] {
      var t := Pretty(s);
      assert t == [s[0]] + Pretty(s[1..]);
      assert t[1..] == Pretty(s[1..]);
      assert |s| >= 2 ==> t[1] == s[1];
      UnprettyPretty(s[1..]);
      assert s == [s[0]] + s[1..];
    }
  }

  /** `Compact` distributes over concatenation. */
  lemma {:induction false} CompactAppend(a: string, b: string)
    ensures Compact(a + b) == Compact(a) + Compact(b)
    decreases |a|
  {
    if a == [] {
      assert a + b == b;
    } else {
      var h := if IsWhitespace(a[0]) then [] else [a[0]];
      assert (a + b)[0] == a[0] && (a + b)[1..] == a[1..] + b;
      assert Compact(a + b) == h + Compact(a[1..] + b);
      CompactAppend(a[1..], b);
      assert Compact(a) == h + Compact(a[1..]);
      assert h + (Compact(a[1..]) + Compact(b)) == (h + Compact(a[1..])) + Compact(b);
    }
  }

  /** `raw` only adds whitespace: compacting it gives `toString` of the buffer. */
  lemma {:induction false} CompactPretty(s: string)
    ensures Compact(Pretty(s)) == Compact(s)
    decreases |s|
  {
    if |s| >= 2 && s[0] == ')' && s[1] == '.' {
      CompactPretty(s[2..]);
      CompactLineBreak(Pretty(s[2..]));
      assert s == ")." + s[2..];
      CompactAppend(").", s[2..]);
      CompactClosing();
    } else if s != [] {
      CompactPretty(s[1..]);
      assert Pretty(s) == [s[0]] + Pretty(s[1..]);
      CompactAppend([s[0]], Pretty(s[1..]));
      assert s == [s[0]] + s[1..];
      CompactAppend([s[0]], s[1..]);
    }
  }

  lemma CompactClosing()
    ensures Compact(").") == ")."
  {
    assert ")."[1..] == ".";
    assert "."[1..] == [];
  }

  lemma CompactLineBreak(t: string)
    ensures Compact(").\n" + t) == ")." + Compact(t)
  {
    CompactAppend(").\n", t);
    assert ").\n"[1..] == ".\n";
    assert ".\n"[1..] == "\n";
    assert "\n"[1..] == [];
  }

  /** `toString` is idempotent. */
  lemma CompactIdempotent(s: string)
    ensures Compact(Compact(s)) == Compact(s)
  {
    CompactSpec(s);
    CompactSpec(Compact(s));
  }
}
