/** The structural id of a SwingTrade thesis: its setup id without the version of the rules that made it. */
module StructuralId {
  import opened Market

  predicate Digit(ch: char) {
    '0' <= ch <= '9'
  }

  /** How many digits a text starts with. */
  function DigitRun(s: string): (n: nat)
    ensures n <= |s|
  {
    if s == "" || !Digit(s[0]) then 0 else 1 + DigitRun(s[1..])
  }

  lemma {:induction false} DigitRunMeans(s: string)
    ensures forall k :: 0 <= k < DigitRun(s) ==> Digit(s[k])
    ensures DigitRun(s) < |s| ==> !Digit(s[DigitRun(s)])
  {
    if s != "" && Digit(s[0]) {
      DigitRunMeans(s[1..]);
    }
  }

  /** What follows a run of digits and a dot. */
  function AfterDot(s: string): Option<string> {
    var n := DigitRun(s);
    if 0 < n < |s| && s[n] == '.' then Some(s[n + 1..]) else None
  }

  /** Three runs of digits joined by dots. */
  predicate SemVer(v: string) {
    var minor := AfterDot(v);
    minor.Some? && var patch := AfterDot(minor.value); patch.Some? && 0 < DigitRun(patch.value) == |patch.value|
  }

  /** The position of the last colon, if there is one. */
  function LastColon(s: string): (k: Option<nat>)
    ensures k.Some? ==> k.value < |s|
  {
    if s == "" then None
    else if s[|s| - 1] == ':' then Some(|s| - 1)
    else LastColon(s[..|s| - 1])
  }

  lemma {:induction false} LastColonMeans(s: string)
    ensures LastColon(s).Some? ==> s[LastColon(s).value] == ':' && ':' !in s[LastColon(s).value + 1..]
    ensures LastColon(s).None? ==> ':' !in s
    decreases |s|
  {
    if s != "" && s[|s| - 1] != ':' {
      var shorter, last := s[..|s| - 1], s[|s| - 1];
      LastColonMeans(shorter);
      assert s == shorter + [last];
      if LastColon(s).Some? {
        assert s[LastColon(s).value + 1..] == shorter[LastColon(s).value + 1..] + [last];
      }
    }
  }

  const PREFIX := "swing-trade:"

  predicate SwingTradeId(id: string) {
    |id| >= |PREFIX| && id[..|PREFIX|] == PREFIX
  }

  /** A SwingTrade id without its version suffix; any other id as it is. */
  function Canonical(id: string): (r: string)
    ensures r != id ==> |r| < |id|
  {
    var k := LastColon(id);
    if !SwingTradeId(id) || k.None? then id
    else if SemVer(id[k.value + 1..]) then id[..k.value]
    else id
  }

  /** `id` ends in two versions, and is a SwingTrade id up to and including the first of them. */
  predicate EndsInVersions(id: string, base: string, v: string, w: string) {
    id == base + ":" + v + ":" + w && SemVer(v) && SemVer(w) && SwingTradeId(base + ":" + v)
  }

  ghost predicate TwoVersions(id: string) {
    exists base, v, w :: EndsInVersions(id, base, v, w)
  }

  lemma NoColonBeforeDot(s: string)
    requires AfterDot(s).Some? && ':' !in AfterDot(s).value
    ensures ':' !in s
  {
    var n := DigitRun(s);
    DigitRunMeans(s);
    assert s == s[..n] + [s[n]] + s[n + 1..];
  }

  lemma NoColonInSemVer(v: string)
    requires SemVer(v)
    ensures ':' !in v
  {
    var minor := AfterDot(v).value;
    DigitRunMeans(AfterDot(minor).value);
    NoColonBeforeDot(minor);
    NoColonBeforeDot(v);
  }

  lemma NoColonAfter(s: string, m: nat, n: nat)
    requires m < |s| && n < |s| && ':' !in s[m + 1..]
    ensures m < n ==> s[n] != ':'
  {
    if m < n {
      assert s[m + 1..][n - m - 1] == s[n];
    }
  }

  lemma LastColonIs(s: string, k: nat)
    requires k < |s| && s[k] == ':' && ':' !in s[k + 1..]
    ensures LastColon(s) == Some(k)
  {
    LastColonMeans(s);
    assert ':' in s;
    NoColonAfter(s, k, LastColon(s).value);
    NoColonAfter(s, LastColon(s).value, k);
  }

  lemma SuffixKeepsPrefix(base: string, v: string)
    requires SwingTradeId(base)
    ensures SwingTradeId(base + ":" + v)
  {
    assert (base + ":" + v)[..|PREFIX|] == base[..|PREFIX|];
  }

  lemma VersionComesOff(id: string, k: nat)
    requires SwingTradeId(id) && k < |id| && LastColon(id) == Some(k) && SemVer(id[k + 1..])
    ensures Canonical(id) == id[..k]
  {
  }

  lemma ColonSplits(base: string, v: string)
    ensures var id := base + ":" + v; id[|base|] == ':' && id[|base| + 1..] == v && id[..|base|] == base
  {
  }

  /** Canonicalisation takes one version off. */
  lemma SuffixComesOff(base: string, v: string)
    requires SwingTradeId(base + ":" + v) && SemVer(v)
    ensures Canonical(base + ":" + v) == base
  {
    var id := base + ":" + v;
    NoColonInSemVer(v);
    ColonSplits(base, v);
    LastColonIs(id, |base|);
    VersionComesOff(id, |base|);
  }

  lemma {:induction false} LastColonIsOne(s: string)
    ensures LastColon(s).Some? ==> s[LastColon(s).value] == ':'
    decreases |s|
  {
    if s != "" && s[|s| - 1] != ':' {
      LastColonIsOne(s[..|s| - 1]);
    }
  }

  lemma SplitAtColon(s: string, k: nat)
    requires k < |s| && s[k] == ':'
    ensures s == s[..k] + ":" + s[k + 1..]
  {
  }

  /** An id that is not canonical ends in a colon and a version. */
  lemma OnlyASuffixComesOff(id: string) returns (base: string, v: string)
    requires Canonical(id) != id
    ensures id == base + ":" + v && SemVer(v) && SwingTradeId(id) && Canonical(id) == base
  {
    var k := LastColon(id).value;
    LastColonIsOne(id);
    base, v := id[..k], id[k + 1..];
    SplitAtColon(id, k);
  }

  /** One pass is enough for every id but those that end in two versions. */
  lemma OnePassExactly(id: string)
    ensures Canonical(Canonical(id)) == Canonical(id) <==> !TwoVersions(id)
  {
    if Canonical(Canonical(id)) != Canonical(id) {
      var c, w := OnlyASuffixComesOff(id);
      var base, v := OnlyASuffixComesOff(c);
      assert EndsInVersions(id, base, v, w);
    }
    if TwoVersions(id) {
      var base, v, w :| EndsInVersions(id, base, v, w);
      SuffixKeepsPrefix(base + ":" + v, w);
      SuffixComesOff(base + ":" + v, w);
      SuffixComesOff(base, v);
    }
  }

  /** The prefix without its colon is no SwingTrade id, yet it is what two passes leave of the prefix
      followed by two versions, as of `swing-trade:1.2.3:4.5.6`. */
  lemma BarePrefixTakesTwoPasses(v: string, w: string)
    requires SemVer(v) && SemVer(w)
    ensures TwoVersions(PREFIX + v + ":" + w)
    ensures Canonical(Canonical(PREFIX + v + ":" + w)) != Canonical(PREFIX + v + ":" + w)
  {
    var base := PREFIX[..|PREFIX| - 1];
    assert base + ":" == PREFIX;
    assert (PREFIX + v)[..|PREFIX|] == PREFIX;
    assert EndsInVersions(PREFIX + v + ":" + w, base, v, w);
    OnePassExactly(PREFIX + v + ":" + w);
  }
}
