/**
 * The append-step primitive every step of the builders shares: the separator of
 * checkDot.js followed by a `name(args)` unit, plus the text helpers the step
 * templates use (quoting, `Array.prototype.join`).
 */
module Fragments {
  import opened Separator

  /** `query + checkDot(query) + fragment`. */
  function Append(query: string, fragment: string): string {
    query + CheckDot(query) + fragment
  }

  /** A string argument as the templates render it: `'arg'`. */
  function Quote(s: string): string {
    "'" + s + "'"
  }

  /** `name(args)`. */
  function Call(name: string, args: string): string {
    name + "(" + args + ")"
  }

  /** `xs.map(x => `'${x}'`)`. */
  function QuoteAll(xs: seq<string>): (r: seq<string>)
    ensures |r| == |xs|
    ensures forall i :: 0 <= i < |xs| ==> r[i] == Quote(xs[i])
  {
    seq(|xs|, i requires 0 <= i < |xs| => Quote(xs[i]))
  }

  /** `xs.join(sep)`. */
  function Join(xs: seq<string>, sep: string): string {
    if xs == [] then ""
    else if |xs| == 1 then xs[0]
    else xs[0] + sep + Join(xs[1..], sep)
  }

  /** Appending the fragments one after another, each behind its own separator. */
  function AppendAll(query: string, fs: seq<string>): string
    decreases |fs|
  {
    if fs == [] then query else AppendAll(Append(query, fs[0]), fs[1..])
  }

  /** A complete step unit: non-empty and closed by `)`. */
  predicate Closed(f: string) {
    |f| > 0 && f[|f| - 1] == ')'
  }

  /** No two consecutive dots. */
  predicate NoDoubleDot(s: string) {
    forall i :: 0 <= i < |s| - 1 ==> !(s[i] == '.' && s[i + 1] == '.')
  }

  /** The separator decision: nothing in front of the first step or after `(` and `.`, one dot otherwise. */
  lemma AppendCases(query: string, fragment: string)
    ensures |query| == 0 ==> Append(query, fragment) == fragment
    ensures |query| > 0 && query[|query| - 1] in "(." ==> Append(query, fragment) == query + fragment
    ensures |query| > 0 && query[|query| - 1] !in "(." ==> Append(query, fragment) == query + "." + fragment
  {
  }

  /** The old buffer stays a prefix and a closed unit leaves the buffer closed. */
  lemma AppendExtends(query: string, fragment: string)
    ensures query <= Append(query, fragment)
    ensures Closed(fragment) ==> Closed(Append(query, fragment))
  {
  }

  /**
   * Separator correctness: a chain of closed units appended to an empty buffer is
   * exactly the units joined by single dots, with none before the first or after
   * the last.
   */
  lemma ChainOfUnits(fs: seq<string>)
    requires forall i :: 0 <= i < |fs| ==> Closed(fs[i])
    ensures AppendAll("", fs) == Join(fs, ".")
  {
    if fs != [] {
      assert Append("", fs[0]) == fs[0];
      ChainAfterUnit(fs[0], fs[1..]);
    }
  }

  /** After a closed buffer, every further unit is preceded by exactly one dot. */
  lemma {:induction false} ChainAfterUnit(q: string, fs: seq<string>)
    requires Closed(q)
    requires forall i :: 0 <= i < |fs| ==> Closed(fs[i])
    ensures AppendAll(q, fs) == if fs == [] then q else q + "." + Join(fs, ".")
    decreases |fs|
  {
    if fs != [] {
      var q' := Append(q, fs[0]);
      assert q' == q + "." + fs[0];
      ChainAfterUnit(q', fs[1..]);
      if |fs| > 1 {
        assert Join(fs, ".") == fs[0] + "." + Join(fs[1..], ".");
      }
    }
  }

  /**
   * No double dots: appending a unit that does not itself start with a dot or
   * contain `..` never produces `..`.
   */
  lemma AppendNoDoubleDot(query: string, fragment: string)
    requires NoDoubleDot(query) && NoDoubleDot(fragment)
    requires |fragment| > 0 ==> fragment[0] != '.'
    ensures NoDoubleDot(Append(query, fragment))
  {
    var r := Append(query, fragment);
    var sep := CheckDot(query);
    forall i | 0 <= i < |r| - 1
      ensures !(r[i] == '.' && r[i + 1] == '.')
    {
      if i + 1 < |query| {
        assert r[i] == query[i] && r[i + 1] == query[i + 1];
      } else if i + 1 == |query| {
        assert r[i] == query[|query| - 1];
        if sep == "" {
          assert r[i + 1] == fragment[0];
        } else {
          assert query[|query| - 1] != '.';
        }
      } else if i == |query| && sep == "." {
        assert r[i + 1] == fragment[0];
      } else {
        var k := i - |query| - |sep|;
        assert r[i] == fragment[k] && r[i + 1] == fragment[k + 1];
      }
    }
  }
}
