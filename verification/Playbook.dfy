/**
 * The playbook: declarative rules expanded into remediation actions without duplicates.
 *
 * An action is a duplicate when an earlier one has the same type and the same target; the
 * earlier one, with the name of its own rule as the rationale, stays.
 */
module Playbook {
  import opened Wrappers
  import opened Sequences

  /** An event behind the chain; a missing address or port is "" or 0. */
  datatype Activity = Connect(ip: string, port: int) | Write(path: string) | Other

  datatype Vector = Vector(pid: int, related: seq<Activity>)

  datatype Detection = Detection(flagged: bool, severity: string, techniques: set<string>)

  /** Without severities, or without techniques, a rule does not ask for any. */
  datatype Rule = Rule(name: string, severities: seq<string>, techniques: set<string>, actions: seq<string>)

  datatype Target = Pid(pid: int) | Ip(ip: string) | Path(path: string)

  datatype Action = Action(kind: string, target: Target, rationale: string)

  /** What makes two actions the same. */
  datatype Key = Key(kind: string, target: Target)

  function KeyOf(a: Action): (k: Key) {
    Key(a.kind, a.target)
  }

  function KeysOf(actions: seq<Action>): (r: set<Key>) {
    set a | a in actions :: KeyOf(a)
  }

  predicate Matches(rule: Rule, d: Detection) {
    && (rule.severities == [] || d.severity in rule.severities)
    && (rule.techniques == {} || rule.techniques * d.techniques != {})
  }

  predicate LocalAddress(ip: string) {
    "10." <= ip || "192.168." <= ip || "127." <= ip || "169.254." <= ip
  }

  predicate SuspiciousConnect(e: Activity) {
    && e.Connect? && e.ip != "" && !LocalAddress(e.ip)
    && e.port != 0 && e.port !in {80, 443, 22, 53} && e.port > 1024
  }

  predicate TmpWrite(e: Activity) {
    e.Write? && ("/tmp" <= e.path || "/dev/shm" <= e.path || "/var/tmp" <= e.path)
  }

  /** The distinct addresses of suspicious connections, in order of first appearance. */
  function SuspiciousIps(events: seq<Activity>): (r: seq<string>)
    ensures forall ip :: ip in r <==> exists e :: e in events && SuspiciousConnect(e) && e.ip == ip
    ensures Distinct(r)
  {
    if events == [] then []
    else
      var init := SuspiciousIps(events[..|events| - 1]);
      var e := events[|events| - 1];
      assert events == events[..|events| - 1] + [e];
      if SuspiciousConnect(e) && e.ip !in init then init + [e.ip] else init
  }

  function TmpPayloads(events: seq<Activity>): (r: seq<string>)
    ensures forall path :: path in r <==> exists e :: e in events && TmpWrite(e) && e.path == path
    ensures Distinct(r)
  {
    if events == [] then []
    else
      var init := TmpPayloads(events[..|events| - 1]);
      var e := events[|events| - 1];
      assert events == events[..|events| - 1] + [e];
      if TmpWrite(e) && e.path !in init then init + [e.path] else init
  }

  function Blocks(ips: seq<string>, rationale: string): (r: seq<Action>) {
    seq(|ips|, i requires 0 <= i < |ips| => Action("block_ip", Ip(ips[i]), rationale))
  }

  function Quarantines(paths: seq<string>, rationale: string): (r: seq<Action>) {
    seq(|paths|, i requires 0 <= i < |paths| => Action("quarantine_file", Path(paths[i]), rationale))
  }

  /** The actions one action type of a rule expands to; an unknown type to none. */
  function Build(kind: string, v: Vector, rationale: string): (r: seq<Action>) {
    if kind == "kill_process" then [Action("kill_process", Pid(v.pid), rationale)]
    else if kind == "freeze_process" then [Action("freeze_process", Pid(v.pid), rationale)]
    else if kind == "block_ip" then Blocks(SuspiciousIps(v.related), rationale)
    else if kind == "quarantine_file" then Quarantines(TmpPayloads(v.related), rationale)
    else []
  }

  function BuildAll(kinds: seq<string>, v: Vector, rationale: string): (r: seq<Action>) {
    if kinds == [] then []
    else BuildAll(kinds[..|kinds| - 1], v, rationale) + Build(kinds[|kinds| - 1], v, rationale)
  }

  function ExpandRule(rule: Rule, v: Vector, d: Detection): (r: seq<Action>) {
    if Matches(rule, d) then BuildAll(rule.actions, v, rule.name) else []
  }

  /** Everything the matching rules ask for, in order, duplicates and all. */
  function Expand(rules: seq<Rule>, v: Vector, d: Detection): (r: seq<Action>) {
    if rules == [] then []
    else Expand(rules[..|rules| - 1], v, d) + ExpandRule(rules[|rules| - 1], v, d)
  }

  /** The first action of every key, in order. */
  function Firsts(actions: seq<Action>): (r: seq<Action>) {
    if actions == [] then []
    else
      var init, last := actions[..|actions| - 1], actions[|actions| - 1];
      if KeyOf(last) in KeysOf(init) then Firsts(init) else Firsts(init) + [last]
  }

  function Decided(rules: seq<Rule>, v: Vector, d: Detection): (r: seq<Action>) {
    if d.flagged then Firsts(Expand(rules, v, d)) else []
  }

  class PlaybookEngine {
    const rules: seq<Rule>

    constructor (rules: seq<Rule>)
      ensures this.rules == rules
    {
      this.rules := rules;
    }

    static method CollectIps(events: seq<Activity>) returns (ips: seq<string>)
      ensures ips == SuspiciousIps(events)
    {
      ips := [];
      for i := 0 to |events|
        invariant ips == SuspiciousIps(events[..i])
      {
        assert events[..i + 1][..i] == events[..i];
        var e := events[i];
        if !e.Connect? || e.ip == "" || LocalAddress(e.ip) {
          continue;
        }
        if e.port != 0 && e.port !in {80, 443, 22, 53} && e.port > 1024 && e.ip !in ips {
          ips := ips + [e.ip];
        }
      }
      assert events[..|events|] == events;
    }

    static method CollectPayloads(events: seq<Activity>) returns (paths: seq<string>)
      ensures paths == TmpPayloads(events)
    {
      paths := [];
      for i := 0 to |events|
        invariant paths == TmpPayloads(events[..i])
      {
        assert events[..i + 1][..i] == events[..i];
        var e := events[i];
        if e.Write? && ("/tmp" <= e.path || "/dev/shm" <= e.path || "/var/tmp" <= e.path) && e.path !in paths {
          paths := paths + [e.path];
        }
      }
      assert events[..|events|] == events;
    }

    static method BuildActions(kind: string, v: Vector, rationale: string) returns (built: seq<Action>)
      ensures built == Build(kind, v, rationale)
    {
      match kind {
        case "kill_process" => built := [Action("kill_process", Pid(v.pid), rationale)];
        case "freeze_process" => built := [Action("freeze_process", Pid(v.pid), rationale)];
        case "block_ip" =>
          var ips := CollectIps(v.related);
          built := Blocks(ips, rationale);
        case "quarantine_file" =>
          var paths := CollectPayloads(v.related);
          built := Quarantines(paths, rationale);
        case _ => built := [];
      }
    }

    /** The inner loop: what one action type adds to the actions and keys so far. */
    static method Admit(built: seq<Action>, actions0: seq<Action>, seen0: set<Key>, ghost all: seq<Action>)
      returns (actions: seq<Action>, seen: set<Key>)
      requires actions0 == Firsts(all) && seen0 == KeysOf(all)
      ensures actions == Firsts(all + built) && seen == KeysOf(all + built)
    {
      actions, seen := actions0, seen0;
      assert all + built[..0] == all;
      for i := 0 to |built|
        invariant actions == Firsts(all + built[..i]) && seen == KeysOf(all + built[..i])
      {
        var action := built[i];
        AdmitNext(all, built, i);
        if KeyOf(action) in seen {
          continue;
        }
        seen := seen + {KeyOf(action)};
        actions := actions + [action];
      }
      assert built[..|built|] == built;
    }

    method Decide(v: Vector, d: Detection) returns (actions: seq<Action>)
      ensures actions == Decided(rules, v, d)
    {
      if !d.flagged {
        return [];
      }
      actions := [];
      var seen: set<Key> := {};
      for i := 0 to |rules|
        invariant actions == Firsts(Expand(rules[..i], v, d)) && seen == KeysOf(Expand(rules[..i], v, d))
      {
        var rule := rules[i];
        ExpandNext(rules, v, d, i);
        ghost var before := Expand(rules[..i], v, d);
        if !Matches(rule, d) {
          assert before + [] == before;
          continue;
        }
        assert before + BuildAll(rule.actions[..0], v, rule.name) == before;
        for j := 0 to |rule.actions|
          invariant actions == Firsts(before + BuildAll(rule.actions[..j], v, rule.name))
          invariant seen == KeysOf(before + BuildAll(rule.actions[..j], v, rule.name))
        {
          var built := BuildActions(rule.actions[j], v, rule.name);
          BuildAllNext(rule.actions, v, rule.name, j, before);
          actions, seen := Admit(built, actions, seen, before + BuildAll(rule.actions[..j], v, rule.name));
        }
        assert rule.actions[..|rule.actions|] == rule.actions;
      }
      assert rules[..|rules|] == rules;
    }
  }

  lemma ExpandNext(rules: seq<Rule>, v: Vector, d: Detection, i: nat)
    requires i < |rules|
    ensures Expand(rules[..i + 1], v, d) == Expand(rules[..i], v, d) + ExpandRule(rules[i], v, d)
  {
    assert rules[..i + 1][..i] == rules[..i];
  }

  lemma BuildAllNext(kinds: seq<string>, v: Vector, rationale: string, j: nat, before: seq<Action>)
    requires j < |kinds|
    ensures before + BuildAll(kinds[..j + 1], v, rationale)
            == before + BuildAll(kinds[..j], v, rationale) + Build(kinds[j], v, rationale)
  {
    assert kinds[..j + 1][..j] == kinds[..j];
  }

  lemma FirstsSnoc(actions: seq<Action>, a: Action)
    ensures Firsts(actions + [a]) == if KeyOf(a) in KeysOf(actions) then Firsts(actions) else Firsts(actions) + [a]
  {
    assert (actions + [a])[..|actions|] == actions;
  }

  lemma KeysSnoc(actions: seq<Action>, a: Action)
    ensures KeysOf(actions + [a]) == KeysOf(actions) + {KeyOf(a)}
  {
    assert forall x :: x in actions + [a] <==> x in actions || x == a;
    assert a in actions + [a];
  }

  lemma AdmitNext(all: seq<Action>, built: seq<Action>, i: nat)
    requires i < |built|
    ensures var before, after := all + built[..i], all + built[..i + 1];
      && Firsts(after) == (if KeyOf(built[i]) in KeysOf(before) then Firsts(before) else Firsts(before) + [built[i]])
      && KeysOf(after) == KeysOf(before) + {KeyOf(built[i])}
  {
    assert all + built[..i + 1] == all + built[..i] + [built[i]];
    FirstsSnoc(all + built[..i], built[i]);
    KeysSnoc(all + built[..i], built[i]);
  }

  /* -------------------------------------------------------------------- properties */

  /** No key lost, none twice, and nothing that was not asked for. */
  lemma {:induction false} FirstsKeys(actions: seq<Action>)
    ensures KeysOf(Firsts(actions)) == KeysOf(actions)
    ensures forall i, j :: 0 <= i < j < |Firsts(actions)| ==> KeyOf(Firsts(actions)[i]) != KeyOf(Firsts(actions)[j])
    ensures forall a :: a in Firsts(actions) ==> a in actions
  {
    if actions != [] {
      var init, last := actions[..|actions| - 1], actions[|actions| - 1];
      FirstsKeys(init);
      assert actions == init + [last];
      KeysSnoc(init, last);
      if KeyOf(last) !in KeysOf(init) {
        KeysSnoc(Firsts(init), last);
        forall i | 0 <= i < |Firsts(init)| ensures KeyOf(Firsts(init)[i]) != KeyOf(last) {
          assert Firsts(init)[i] in Firsts(init);
        }
      }
    }
  }

  lemma {:induction false} FirstsExtend(a: seq<Action>, b: seq<Action>)
    ensures Firsts(a) <= Firsts(a + b)
    decreases |b|
  {
    if b == [] {
      assert a + b == a;
    } else {
      var init := b[..|b| - 1];
      FirstsExtend(a, init);
      assert a + b == a + init + [b[|b| - 1]];
      FirstsSnoc(a + init, b[|b| - 1]);
    }
  }

  lemma ExpandSnoc(rules: seq<Rule>, rule: Rule, v: Vector, d: Detection)
    ensures Expand(rules + [rule], v, d) == Expand(rules, v, d) + ExpandRule(rule, v, d)
  {
    assert (rules + [rule])[..|rules|] == rules;
  }

  lemma {:induction false} ExpandAppend(rules: seq<Rule>, more: seq<Rule>, v: Vector, d: Detection)
    ensures Expand(rules + more, v, d) == Expand(rules, v, d) + Expand(more, v, d)
    decreases |more|
  {
    if more == [] {
      assert rules + more == rules;
    } else {
      var init, last := more[..|more| - 1], more[|more| - 1];
      ExpandAppend(rules, init, v, d);
      assert more == init + [last];
      assert rules + more == (rules + init) + [last];
      ExpandSnoc(rules + init, last, v, d);
      ExpandSnoc(init, last, v, d);
      Associates(Expand(rules, v, d), Expand(init, v, d), ExpandRule(last, v, d));
    }
  }

  lemma Associates(a: seq<Action>, b: seq<Action>, c: seq<Action>)
    ensures a + b + c == a + (b + c)
  {
  }

  /** Rules added at the end only add actions at the end. */
  lemma AddedRulesOnlyAdd(rules: seq<Rule>, more: seq<Rule>, v: Vector, d: Detection)
    ensures Decided(rules, v, d) <= Decided(rules + more, v, d)
  {
    ExpandAppend(rules, more, v, d);
    FirstsExtend(Expand(rules, v, d), Expand(more, v, d));
  }

  /** Which keys a rule's action type stands for. */
  predicate Asks(kind: string, v: Vector, k: Key) {
    && kind == k.kind
    && match k.target
       case Pid(pid) => kind in {"kill_process", "freeze_process"} && pid == v.pid
       case Ip(ip) => kind == "block_ip" && exists e :: e in v.related && SuspiciousConnect(e) && e.ip == ip
       case Path(path) => kind == "quarantine_file" && exists e :: e in v.related && TmpWrite(e) && e.path == path
  }

  lemma BuildKeys(kind: string, v: Vector, rationale: string, k: Key)
    ensures k in KeysOf(Build(kind, v, rationale)) <==> Asks(kind, v, k)
    ensures forall a :: a in Build(kind, v, rationale) ==> a.rationale == rationale
  {
    if kind == "block_ip" && k.kind == kind && k.target.Ip? {
      BlocksKeys(SuspiciousIps(v.related), rationale, k.target.ip);
    } else if kind == "quarantine_file" && k.kind == kind && k.target.Path? {
      QuarantinesKeys(TmpPayloads(v.related), rationale, k.target.path);
    } else if kind == "kill_process" || kind == "freeze_process" {
      assert Build(kind, v, rationale) == [Action(kind, Pid(v.pid), rationale)];
      assert Build(kind, v, rationale)[0] in Build(kind, v, rationale);
    }
  }

  lemma BlocksKeys(ips: seq<string>, rationale: string, ip: string)
    ensures Key("block_ip", Ip(ip)) in KeysOf(Blocks(ips, rationale)) <==> ip in ips
  {
    if ip in ips {
      var i :| 0 <= i < |ips| && ips[i] == ip;
      assert Blocks(ips, rationale)[i] in Blocks(ips, rationale);
    }
  }

  lemma QuarantinesKeys(paths: seq<string>, rationale: string, path: string)
    ensures Key("quarantine_file", Path(path)) in KeysOf(Quarantines(paths, rationale)) <==> path in paths
  {
    if path in paths {
      var i :| 0 <= i < |paths| && paths[i] == path;
      assert Quarantines(paths, rationale)[i] in Quarantines(paths, rationale);
    }
  }

  lemma KeysAppend(a: seq<Action>, b: seq<Action>)
    ensures KeysOf(a + b) == KeysOf(a) + KeysOf(b)
  {
    assert forall x :: x in a + b <==> x in a || x in b;
  }

  predicate RuleAsks(rule: Rule, v: Vector, d: Detection, k: Key) {
    Matches(rule, d) && k.kind in rule.actions && Asks(k.kind, v, k)
  }

  lemma {:induction false} BuildAllKeys(kinds: seq<string>, v: Vector, rationale: string, k: Key)
    ensures k in KeysOf(BuildAll(kinds, v, rationale)) <==> k.kind in kinds && Asks(k.kind, v, k)
    ensures forall a :: a in BuildAll(kinds, v, rationale) ==> a.rationale == rationale
  {
    if kinds != [] {
      var init, last := kinds[..|kinds| - 1], kinds[|kinds| - 1];
      BuildAllKeys(init, v, rationale, k);
      BuildKeys(last, v, rationale, k);
      KeysAppend(BuildAll(init, v, rationale), Build(last, v, rationale));
      assert kinds == init + [last];
    }
  }

  /** Some matching rule asks for `k`, and the chain gives its target. */
  predicate AskedFor(rules: seq<Rule>, v: Vector, d: Detection, k: Key) {
    exists rule :: rule in rules && RuleAsks(rule, v, d, k)
  }

  lemma AskedForSnoc(rules: seq<Rule>, rule: Rule, v: Vector, d: Detection, k: Key)
    ensures AskedFor(rules + [rule], v, d, k) <==> AskedFor(rules, v, d, k) || RuleAsks(rule, v, d, k)
  {
    assert rule in rules + [rule];
    assert forall x :: x in rules + [rule] <==> x in rules || x == rule;
  }

  lemma ExpandRuleKeys(rule: Rule, v: Vector, d: Detection, k: Key)
    ensures k in KeysOf(ExpandRule(rule, v, d)) <==> RuleAsks(rule, v, d, k)
  {
    BuildAllKeys(rule.actions, v, rule.name, k);
  }

  lemma {:induction false} ExpandKeys(rules: seq<Rule>, v: Vector, d: Detection, k: Key)
    ensures k in KeysOf(Expand(rules, v, d)) <==> AskedFor(rules, v, d, k)
  {
    if rules != [] {
      var init, last := rules[..|rules| - 1], rules[|rules| - 1];
      ExpandKeys(init, v, d, k);
      assert rules == init + [last];
      ExpandSnoc(init, last, v, d);
      ExpandRuleKeys(last, v, d, k);
      KeysAppend(Expand(init, v, d), ExpandRule(last, v, d));
      AskedForSnoc(init, last, v, d, k);
    }
  }

  /**
   * Exactly what is decided: each key that some matching rule asks for and the chain gives
   * a target for, once each, and nothing for a detection that is not flagged.
   */
  lemma DecidesExactly(rules: seq<Rule>, v: Vector, d: Detection, k: Key)
    ensures k in KeysOf(Decided(rules, v, d)) <==> d.flagged && AskedFor(rules, v, d, k)
    ensures var r := Decided(rules, v, d); forall i, j :: 0 <= i < j < |r| ==> KeyOf(r[i]) != KeyOf(r[j])
  {
    ExpandKeys(rules, v, d, k);
    FirstsKeys(Expand(rules, v, d));
  }

  /** The order of the rules decides whose rationale an action carries, never which actions there are. */
  lemma RuleOrderDoesNotMatter(rules: seq<Rule>, others: seq<Rule>, v: Vector, d: Detection)
    requires forall rule :: rule in rules <==> rule in others
    ensures KeysOf(Decided(rules, v, d)) == KeysOf(Decided(others, v, d))
  {
    forall k: Key ensures k in KeysOf(Decided(rules, v, d)) <==> k in KeysOf(Decided(others, v, d)) {
      DecidesExactly(rules, v, d, k);
      DecidesExactly(others, v, d, k);
    }
  }

  /** An action is decided for the first matching rule that asks for it. */
  lemma FirstRuleDecides(rules: seq<Rule>, v: Vector, d: Detection, a: Action, i: nat)
    requires a in Decided(rules, v, d) && i < |rules|
    requires RuleAsks(rules[i], v, d, KeyOf(a))
    requires forall j :: 0 <= j < i ==> !RuleAsks(rules[j], v, d, KeyOf(a))
    ensures a.rationale == rules[i].name
  {
    var before, these, rest := Expand(rules[..i], v, d), ExpandRule(rules[i], v, d), Expand(rules[i + 1..], v, d);
    ExpandSplit(rules, v, d, i);
    ExpandKeys(rules[..i], v, d, KeyOf(a));
    ExpandRuleKeys(rules[i], v, d, KeyOf(a));
    FirstWithKey(before, these, rest, a);
    BuildAllKeys(rules[i].actions, v, rules[i].name, KeyOf(a));
  }

  lemma ExpandSplit(rules: seq<Rule>, v: Vector, d: Detection, i: nat)
    requires i < |rules|
    ensures Expand(rules, v, d)
            == Expand(rules[..i], v, d) + ExpandRule(rules[i], v, d) + Expand(rules[i + 1..], v, d)
  {
    ExpandNext(rules, v, d, i);
    assert rules == rules[..i + 1] + rules[i + 1..];
    ExpandAppend(rules[..i + 1], rules[i + 1..], v, d);
  }

  lemma SameKeySameAction(actions: seq<Action>, a: Action, b: Action)
    requires a in actions && b in actions && KeyOf(a) == KeyOf(b)
    requires forall i, j :: 0 <= i < j < |actions| ==> KeyOf(actions[i]) != KeyOf(actions[j])
    ensures a == b
  {
    var i :| 0 <= i < |actions| && actions[i] == a;
    var j :| 0 <= j < |actions| && actions[j] == b;
    assert i == j;
  }

  /** An action of `Firsts` whose key is not in `before` but in `these` comes from `these`. */
  lemma FirstWithKey(before: seq<Action>, these: seq<Action>, rest: seq<Action>, a: Action)
    requires a in Firsts(before + these + rest)
    requires KeyOf(a) !in KeysOf(before) && KeyOf(a) in KeysOf(these)
    ensures a in these
  {
    var mine, all := Firsts(before + these), Firsts(before + these + rest);
    FirstsKeys(before + these);
    KeysAppend(before, these);
    FirstsExtend(before + these, rest);
    FirstsKeys(before + these + rest);
    var b :| b in mine && KeyOf(b) == KeyOf(a);
    assert b in all by {
      var i :| 0 <= i < |mine| && mine[i] == b;
      assert all[i] == b;
    }
    SameKeySameAction(all, a, b);
    assert a in before + these;
    KeyIn(before, a);
  }

  lemma KeyIn(actions: seq<Action>, a: Action)
    ensures a in actions ==> KeyOf(a) in KeysOf(actions)
  {
  }

  /* ---------------------------------------------------------- one action of each type */

  predicate OneEach(actions: seq<Action>) {
    forall i, j :: 0 <= i < j < |actions| ==> actions[i].kind != actions[j].kind
  }

  /** Some matching rule lists the action type. */
  predicate Wants(rules: seq<Rule>, d: Detection, kind: string) {
    exists rule :: rule in rules && Matches(rule, d) && kind in rule.actions
  }

  lemma AskedForIff(rules: seq<Rule>, v: Vector, d: Detection, k: Key)
    ensures AskedFor(rules, v, d, k) <==> Wants(rules, d, k.kind) && Asks(k.kind, v, k)
  {
    if Wants(rules, d, k.kind) && Asks(k.kind, v, k) {
      var rule :| rule in rules && Matches(rule, d) && k.kind in rule.actions;
      assert RuleAsks(rule, v, d, k);
    }
  }

  lemma TwoOfAKind(actions: seq<Action>, k: Key, l: Key)
    requires k in KeysOf(actions) && l in KeysOf(actions) && k != l && k.kind == l.kind
    ensures !OneEach(actions)
  {
    var a :| a in actions && KeyOf(a) == k;
    var b :| b in actions && KeyOf(b) == l;
    var i :| 0 <= i < |actions| && actions[i] == a;
    var j :| 0 <= j < |actions| && actions[j] == b;
    assert i < j || j < i;
  }

  /** Two targets of one type that a matching rule lists: both are decided. */
  lemma BothTargetsDecided(rules: seq<Rule>, v: Vector, d: Detection, k: Key, l: Key)
    requires d.flagged && Wants(rules, d, k.kind) && k.kind == l.kind && k != l
    requires Asks(k.kind, v, k) && Asks(l.kind, v, l)
    ensures k in KeysOf(Decided(rules, v, d)) && l in KeysOf(Decided(rules, v, d)) && !OneEach(Decided(rules, v, d))
  {
    AskedForIff(rules, v, d, k);
    AskedForIff(rules, v, d, l);
    DecidesExactly(rules, v, d, k);
    DecidesExactly(rules, v, d, l);
    TwoOfAKind(Decided(rules, v, d), k, l);
  }

  /** What the chain of a detection has to have for the type to have one target at most. */
  predicate OneTarget(v: Vector, kind: string) {
    && (kind == "block_ip" ==> |SuspiciousIps(v.related)| <= 1)
    && (kind == "quarantine_file" ==> |TmpPayloads(v.related)| <= 1)
  }

  lemma SameTarget(v: Vector, k: Key, l: Key)
    requires k.kind == l.kind && Asks(k.kind, v, k) && Asks(l.kind, v, l) && OneTarget(v, k.kind)
    ensures k == l
  {
    match k.target
    case Pid(_) =>
    case Ip(ip) => assert ip in SuspiciousIps(v.related) && l.target.ip in SuspiciousIps(v.related);
    case Path(path) => assert path in TmpPayloads(v.related) && l.target.path in TmpPayloads(v.related);
  }

  lemma TwoTargets(v: Vector, kind: string) returns (k: Key, l: Key)
    requires !OneTarget(v, kind)
    ensures k.kind == l.kind == kind && k != l && Asks(kind, v, k) && Asks(kind, v, l)
  {
    if kind == "block_ip" {
      var ips := SuspiciousIps(v.related);
      assert ips[0] in ips && ips[1] in ips;
      k, l := Key(kind, Ip(ips[0])), Key(kind, Ip(ips[1]));
    } else {
      var paths := TmpPayloads(v.related);
      assert paths[0] in paths && paths[1] in paths;
      k, l := Key(kind, Path(paths[0])), Key(kind, Path(paths[1]));
    }
  }

  /**
   * No two actions of one type are decided exactly when the chain has at most one
   * suspicious address, if a matching rule lists blocking, and at most one file to
   * quarantine, if a matching rule lists that.
   */
  lemma OneOfEachTypeIff(rules: seq<Rule>, v: Vector, d: Detection)
    requires d.flagged
    ensures OneEach(Decided(rules, v, d)) <==> forall kind :: Wants(rules, d, kind) ==> OneTarget(v, kind)
  {
    var r := Decided(rules, v, d);
    if kind :| Wants(rules, d, kind) && !OneTarget(v, kind) {
      var k, l := TwoTargets(v, kind);
      BothTargetsDecided(rules, v, d, k, l);
    } else {
      forall i, j | 0 <= i < j < |r| ensures r[i].kind != r[j].kind {
        DistinctTargets(rules, v, d, i, j);
      }
    }
  }

  lemma DistinctTargets(rules: seq<Rule>, v: Vector, d: Detection, i: nat, j: nat)
    requires d.flagged && i < j < |Decided(rules, v, d)|
    requires forall kind :: Wants(rules, d, kind) ==> OneTarget(v, kind)
    ensures Decided(rules, v, d)[i].kind != Decided(rules, v, d)[j].kind
  {
    var a, b := Decided(rules, v, d)[i], Decided(rules, v, d)[j];
    KeyIn(Decided(rules, v, d), a);
    KeyIn(Decided(rules, v, d), b);
    DecidesExactly(rules, v, d, KeyOf(a));
    DecidesExactly(rules, v, d, KeyOf(b));
    AskedForIff(rules, v, d, KeyOf(a));
    AskedForIff(rules, v, d, KeyOf(b));
    if a.kind == b.kind {
      SameTarget(v, KeyOf(a), KeyOf(b));
      assert false;
    }
  }
}
