/**
 Qualified tool names and the approval tier they fall under: splitting a name into server
 and tool inverts composing it exactly for the server keys the loader lets through.
 */
module ToolNames {
  import opened Common

  const PREFIX := ['m', 'c', 'p', '_', '_']
  const GAP := ['_', '_']
  const PROBE := ['p', 'r', 'o', 'b', 'e']

  datatype Tier = Allow | Ask | Deny

  datatype ServerPolicy = ServerPolicy(fallback: Tier, tiers: map<string, Tier>)

  datatype Call = Call(server: string, tool: string, tier: Tier)

  /** Runs of characters other than the underscore, joined by single underscores. */
  predicate ServerText(s: string) {
    && s != [] && s[0] != '_' && s[|s| - 1] != '_'
    && forall i :: 0 <= i < |s| - 1 ==> s[i] != '_' || s[i + 1] != '_'
  }

  predicate LineEnd(c: char) {
    c == '\n' || c == '\r' || c == '\U{2028}' || c == '\U{2029}'
  }

  predicate ToolText(s: string) {
    s != [] && forall i :: 0 <= i < |s| ==> !LineEnd(s[i])
  }

  // ---- The pattern's server -------------------------------------------------------

  /** A run of characters other than the underscore. */
  predicate Run(s: string) {
    s != [] && forall i :: 0 <= i < |s| ==> s[i] != '_'
  }

  function JoinedRuns(runs: seq<string>): string {
    if runs == [] then [] else if |runs| == 1 then runs[0] else runs[0] + ['_'] + JoinedRuns(runs[1..])
  }

  ghost predicate RunsOf(s: string, runs: seq<string>) {
    runs != [] && (forall i :: 0 <= i < |runs| ==> Run(runs[i])) && s == JoinedRuns(runs)
  }

  lemma {:induction false} RunsAreServer(runs: seq<string>)
    requires runs != [] && forall i :: 0 <= i < |runs| ==> Run(runs[i])
    ensures ServerText(JoinedRuns(runs))
    decreases |runs|
  {
    if |runs| > 1 {
      RunsAreServer(runs[1..]);
      var head, rest := runs[0], JoinedRuns(runs[1..]);
      var s := head + ['_'] + rest;
      assert s[|s| - 1] == rest[|rest| - 1];
      forall i | 0 <= i < |s| - 1 ensures s[i] != '_' || s[i + 1] != '_' {
        if i < |head| {
          assert s[i] == head[i];
        } else if i == |head| {
          assert s[i + 1] == rest[0];
        } else {
          assert s[i] == rest[i - |head| - 1] && s[i + 1] == rest[i - |head|];
        }
      }
    }
  }

  /** The length of the run a text begins with. */
  function FirstRun(s: string): (n: nat)
    ensures n <= |s| && (forall i :: 0 <= i < n ==> s[i] != '_') && (n < |s| ==> s[n] == '_')
  {
    if s == [] || s[0] == '_' then 0 else 1 + FirstRun(s[1..])
  }

  lemma {:induction false} ServerIsRuns(s: string) returns (runs: seq<string>)
    requires ServerText(s)
    ensures RunsOf(s, runs)
    decreases |s|
  {
    var n := FirstRun(s);
    if n == |s| {
      runs := [s];
    } else {
      assert n > 0 && n + 1 < |s|;
      var rest := s[n + 1..];
      assert rest[0] == s[n + 1] && rest[|rest| - 1] == s[|s| - 1];
      forall i | 0 <= i < |rest| - 1 ensures rest[i] != '_' || rest[i + 1] != '_' {
        assert rest[i] == s[n + 1 + i] && rest[i + 1] == s[n + 2 + i];
      }
      var more := ServerIsRuns(rest);
      runs := [s[..n]] + more;
      assert runs[1..] == more && s == s[..n] + ['_'] + rest;
      forall i | 0 <= i < |runs| ensures Run(runs[i]) {
        if i > 0 { assert runs[i] == more[i - 1]; }
      }
    }
  }

  /** The server of the pattern: one or more such runs, joined by single underscores. */
  lemma ServerTextIff(s: string)
    ensures ServerText(s) <==> exists runs :: RunsOf(s, runs)
  {
    if ServerText(s) {
      var runs := ServerIsRuns(s);
    } else if runs :| RunsOf(s, runs) {
      RunsAreServer(runs);
    }
  }

  function Compose(server: string, tool: string): string {
    PREFIX + server + GAP + tool
  }

  predicate SplitsAt(rest: string, i: nat) {
    i + 2 <= |rest| && ServerText(rest[..i]) && rest[i..i + 2] == GAP && ToolText(rest[i + 2..])
  }

  /** The shortest server the pattern admits, from position i on. */
  function SplitFrom(rest: string, i: nat): Option<nat>
    requires i <= |rest|
    decreases |rest| - i
  {
    if SplitsAt(rest, i) then Some(i) else if i == |rest| then None else SplitFrom(rest, i + 1)
  }

  function Parse(name: string): Option<(string, string)> {
    if |name| < 5 || name[..5] != PREFIX then None
    else
      var rest := name[5..];
      var i := SplitFrom(rest, 0);
      if i.None? || i.value + 2 > |rest| then None else Some((rest[..i.value], rest[i.value + 2..]))
  }

  lemma {:induction false} SplitFound(rest: string, i: nat)
    requires i <= |rest|
    ensures SplitFrom(rest, i).Some? ==> i <= SplitFrom(rest, i).value && SplitsAt(rest, SplitFrom(rest, i).value)
    decreases |rest| - i
  {
    if !SplitsAt(rest, i) && i < |rest| { SplitFound(rest, i + 1); }
  }

  lemma {:induction false} SplitFirst(rest: string, i: nat, n: nat)
    requires i <= n <= |rest| && SplitsAt(rest, n) && forall j: nat :: i <= j < n ==> !SplitsAt(rest, j)
    ensures SplitFrom(rest, i) == Some(n)
    decreases n - i
  {
    if i < n { SplitFirst(rest, i + 1, n); }
  }

  lemma SplitHasGap(rest: string, j: nat)
    ensures SplitsAt(rest, j) ==> rest[j] == '_' && rest[j + 1] == '_'
  {
    if SplitsAt(rest, j) {
      assert rest[j] == rest[j..j + 2][0] && rest[j + 1] == rest[j..j + 2][1];
    }
  }

  /** A composed name splits only behind its server, whatever the tool. */
  lemma OnlySplit(server: string, tool: string, j: nat)
    requires ServerText(server) && j != |server|
    ensures !SplitsAt(server + GAP + tool, j)
  {
    var rest := server + GAP + tool;
    SplitHasGap(rest, j);
    assert forall k :: 0 <= k < |server| ==> rest[k] == server[k];
    assert rest[|server|] == '_' && rest[|server| + 1] == '_';
    if |server| < j && j <= |rest| {
      assert rest[..j][|server|] == '_';
      if |server| + 1 < j {
        assert rest[..j][|server| + 1] == '_';
      }
    }
  }

  lemma ComposedRest(server: string, tool: string)
    ensures |Compose(server, tool)| >= 5 && Compose(server, tool)[..5] == PREFIX
    ensures Compose(server, tool)[5..] == server + GAP + tool
  {
  }

  lemma {:induction false} NoSplit(rest: string, i: nat)
    requires i <= |rest| && forall j: nat :: i <= j <= |rest| ==> !SplitsAt(rest, j)
    ensures SplitFrom(rest, i) == None
    decreases |rest| - i
  {
    if i < |rest| { NoSplit(rest, i + 1); }
  }

  /** Behind a well-formed server, a name splits exactly when its tool has the pattern's form. */
  lemma ParseComposed(server: string, tool: string)
    requires ServerText(server)
    ensures Parse(Compose(server, tool)) == if ToolText(tool) then Some((server, tool)) else None
  {
    ComposedRest(server, tool);
    var rest := server + GAP + tool;
    assert rest[..|server|] == server && rest[|server|..|server| + 2] == GAP && rest[|server| + 2..] == tool;
    forall j: nat | j != |server| ensures !SplitsAt(rest, j) {
      OnlySplit(server, tool, j);
    }
    if ToolText(tool) {
      SplitFirst(rest, 0, |server|);
    } else {
      NoSplit(rest, 0);
    }
  }

  /** Splitting a composed name gives back its parts exactly when both parts have the pattern's form. */
  lemma RoundTripIff(server: string, tool: string)
    ensures Parse(Compose(server, tool)) == Some((server, tool)) <==> ServerText(server) && ToolText(tool)
  {
    if ServerText(server) {
      ParseComposed(server, tool);
    } else {
      ComposedRest(server, tool);
      SplitFound(server + GAP + tool, 0);
    }
  }

  lemma Recomposed(name: string, i: nat)
    requires |name| >= 5 && name[..5] == PREFIX && i + 2 <= |name[5..]| && name[5..][i..i + 2] == GAP
    ensures Compose(name[5..][..i], name[5..][i + 2..]) == name
  {
    var rest := name[5..];
    assert rest == rest[..i] + GAP + rest[i + 2..];
    assert name == PREFIX + rest;
    assert PREFIX + (rest[..i] + GAP + rest[i + 2..]) == PREFIX + rest[..i] + GAP + rest[i + 2..];
  }

  /** A name splits in one way only, and its parts compose to it. */
  lemma ComposeParsed(name: string)
    ensures Parse(name).Some? ==> Compose(Parse(name).value.0, Parse(name).value.1) == name
  {
    if Parse(name).Some? {
      SplitFound(name[5..], 0);
      Recomposed(name, SplitFrom(name[5..], 0).value);
    }
  }

  /** The loader's test of a server key. */
  predicate KeyAccepted(server: string) {
    var p := Parse(Compose(server, PROBE));
    p.Some? && p.value.0 == server
  }

  lemma KeyAcceptedIff(server: string)
    ensures KeyAccepted(server) <==> ServerText(server)
  {
    if ServerText(server) {
      ParseComposed(server, PROBE);
    } else {
      ComposedRest(server, PROBE);
      SplitFound(server + GAP + PROBE, 0);
    }
  }

  function Classify(policy: map<string, ServerPolicy>, name: string): Option<Call> {
    var p := Parse(name);
    if p.None? || p.value.0 !in policy then None
    else
      var rules := policy[p.value.0];
      Some(Call(p.value.0, p.value.1, if p.value.1 in rules.tiers then rules.tiers[p.value.1] else rules.fallback))
  }

  /**
   The tools of a managed server are gated under that server's own rules, and never another's;
   one escapes the gate exactly when its name is empty or holds a line end.
   */
  lemma ManagedToolsAreClassified(policy: map<string, ServerPolicy>, server: string, tool: string)
    requires server in policy && KeyAccepted(server)
    ensures Classify(policy, Compose(server, tool))
         == if !ToolText(tool) then None
            else Some(Call(server, tool,
              if tool in policy[server].tiers then policy[server].tiers[tool] else policy[server].fallback))
  {
    KeyAcceptedIff(server);
    ParseComposed(server, tool);
  }

  /** Names withheld up front are exactly those of the denied tools. */
  ghost predicate Withheld(policy: map<string, ServerPolicy>, name: string) {
    exists server, tool :: server in policy && tool in policy[server].tiers && policy[server].tiers[tool] == Deny
      && name == Compose(server, tool)
  }

  /** Withholding a name and denying its calls agree, listed tool by listed tool. */
  lemma WithheldIsDenied(policy: map<string, ServerPolicy>, name: string)
    requires forall server :: server in policy ==> KeyAccepted(server)
    requires forall server, tool :: server in policy && tool in policy[server].tiers ==> ToolText(tool)
    ensures Withheld(policy, name) <==>
      Classify(policy, name).Some?
      && Classify(policy, name).value.tool in policy[Classify(policy, name).value.server].tiers
      && Classify(policy, name).value.tier == Deny
  {
    if Withheld(policy, name) {
      var server, tool :| server in policy && tool in policy[server].tiers && policy[server].tiers[tool] == Deny
        && name == Compose(server, tool);
      ManagedToolsAreClassified(policy, server, tool);
    }
    ComposeParsed(name);
  }

  // ---- Names as they are written ------------------------------------------------------

  const SERVER := ['g', '_', 'h']
  const TOOL := ['a', '_', '_', 'b']

  lemma Written()
    ensures Compose(SERVER, TOOL) == ['m', 'c', 'p', '_', '_', 'g', '_', 'h', '_', '_', 'a', '_', '_', 'b']
    ensures Parse(Compose(SERVER, TOOL)) == Some((SERVER, TOOL))
  {
    ParseComposed(SERVER, TOOL);
  }

  /** A name whose tool ends in this character. */
  lemma Ending(c: char)
    ensures Parse(Compose(SERVER, ['a', c])) ==
      if c in {'\n', '\r', '\U{2028}', '\U{2029}'} then None else Some((SERVER, ['a', c]))
  {
    ParseComposed(SERVER, ['a', c]);
    assert ['a', c][1] == c && ['a', c][0] == 'a';
  }

  lemma NotOurs()
    ensures Parse(['m', 'c', 'p', '_', 'g', '_', '_', 'a']).None? && Parse(['r', 'e', 'a', 'd', '_', '_', 'a']).None?
  {
    assert ['m', 'c', 'p', '_', 'g', '_', '_', 'a'][..5][4] != PREFIX[4];
    assert ['r', 'e', 'a', 'd', '_', '_', 'a'][..5][0] != PREFIX[0];
  }

  /** The name of a tool with underscores of its own, names that are not split, and what line ends do. */
  lemma NamesAsWritten()
    ensures Parse(['m', 'c', 'p', '_', '_', 'g', '_', 'h', '_', '_', 'a', '_', '_', 'b']) == Some((SERVER, TOOL))
    ensures Parse(['m', 'c', 'p', '_', 'g', '_', '_', 'a']).None? && Parse(['r', 'e', 'a', 'd', '_', '_', 'a']).None?
    ensures forall c :: Parse(Compose(SERVER, ['a', c])).None? <==> c in {'\n', '\r', '\U{2028}', '\U{2029}'}
  {
    Written();
    NotOurs();
    forall c ensures Parse(Compose(SERVER, ['a', c])).None? <==> c in {'\n', '\r', '\U{2028}', '\U{2029}'} {
      Ending(c);
    }
  }
}
