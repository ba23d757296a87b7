/** `infra/terraform/scripts/p6_plan_policy.py`: the one-time plan policy, hash gate off. */
module PlanPolicy {

  type Actions = seq<string>

  /** One entry of `resource_changes`. */
  datatype Change = Change(address: string, actions: Actions)

  /** The allowlist in sorted order, and the expected totals. */
  datatype Policy = Policy(allow: seq<(string, string)>, add: nat, change: nat)

  const P6 := Policy(
    [("azurerm_container_app.api", "update"),
     ("azurerm_container_app.frontend", "update"),
     ("azurerm_container_app_job.migration", "update"),
     ("azurerm_container_app_job.worker", "update"),
     ("azurerm_monitor_diagnostic_setting.container_app_environment", "update"),
     ("azurerm_monitor_metric_alert.api_server_errors", "create"),
     ("azurerm_monitor_metric_alert.migration_job_failure", "create"),
     ("azurerm_monitor_metric_alert.worker_job_failure", "create"),
     ("azurerm_role_assignment.application_insights_api", "create"),
     ("azurerm_role_assignment.application_insights_worker", "create")],
    5, 5)

  datatype Violation =
    | Replaces(address: string)
    | Destroys(address: string)
    | NotAllowed(address: string)
    | UnexpectedAction(address: string)
    | Duplicated(bare: string)
    | Missing(bare: string)
    | WrongTotals

  // ---------------------------------------------------------------- addresses

  function SplitOn(s: string, c: char): (parts: seq<string>)
    ensures parts != []
  {
    if s == "" then [""]
    else
      var rest := SplitOn(s[1..], c);
      if s[0] == c then [""] + rest else [[s[0]] + rest[0]] + rest[1..]
  }

  /** The last two dotted parts, up to the first bracket. */
  function BareAddress(address: string): string {
    var parts := SplitOn(address, '.');
    var tail := if |parts| < 2 then address else parts[|parts| - 2] + "." + parts[|parts| - 1];
    SplitOn(tail, '[')[0]
  }

  lemma {:induction false} SplitWhole(s: string, c: char)
    requires c !in s
    ensures SplitOn(s, c) == [s]
  {
    if s != "" {
      SplitWhole(s[1..], c);
      assert s == [s[0]] + s[1..];
    }
  }

  /** One more character in front of a split text. */
  function Fronted(x: char, c: char, parts: seq<string>): seq<string>
    requires parts != []
  {
    if x == c then [""] + parts else [[x] + parts[0]] + parts[1..]
  }

  lemma SplitStep(s: string, c: char)
    requires s != ""
    ensures SplitOn(s, c) == Fronted(s[0], c, SplitOn(s[1..], c))
  {
  }

  lemma FrontedAppend(x: char, c: char, a: seq<string>, b: seq<string>)
    requires a != []
    ensures Fronted(x, c, a + b) == Fronted(x, c, a) + b
  {
    assert (a + b)[1..] == a[1..] + b;
  }

  lemma {:induction false} SplitBetween(a: string, c: char, b: string)
    ensures SplitOn(a + [c] + b, c) == SplitOn(a, c) + SplitOn(b, c)
  {
    var s := a + [c] + b;
    SplitStep(s, c);
    if a == "" {
      assert s[1..] == b;
    } else {
      hide SplitOn, Fronted;
      SplitStep(a, c);
      SplitBetween(a[1..], c, b);
      assert s[0] == a[0] && s[1..] == a[1..] + [c] + b;
      FrontedAppend(a[0], c, SplitOn(a[1..], c), SplitOn(b, c));
    }
  }

  /** What stands before an index, or everything where there is none. */
  lemma BeforeBracket(a: string, index: string)
    requires '[' !in a && (index == "" || index[0] == '[')
    ensures SplitOn(a + index, '[')[0] == a
  {
    SplitWhole(a, '[');
    if index == "" {
      assert a + index == a;
    } else {
      assert a + index == a + ['['] + index[1..];
      SplitBetween(a, '[', index[1..]);
    }
  }

  lemma TwoParts(a: string, b: string)
    requires '.' !in a && '.' !in b
    ensures SplitOn(a + "." + b, '.') == [a, b]
  {
    hide SplitOn;
    SplitWhole(a, '.');
    SplitWhole(b, '.');
    SplitBetween(a, '.', b);
  }

  lemma Rejoined(path: string, a: string, b: string)
    requires path != "" && path[|path| - 1] == '.'
    ensures path + a + "." + b == path[..|path| - 1] + ['.'] + (a + "." + b)
  {
    assert path == path[..|path| - 1] + ['.'];
  }

  /** The last two dotted parts of a path. */
  lemma LastParts(path: string, a: string, b: string)
    requires '.' !in a && '.' !in b && (path == "" || path[|path| - 1] == '.')
    ensures var parts := SplitOn(path + a + "." + b, '.');
            |parts| >= 2 && parts[|parts| - 2] == a && parts[|parts| - 1] == b
  {
    hide SplitOn;
    TwoParts(a, b);
    if path == "" {
      assert path + a + "." + b == a + "." + b;
    } else {
      Rejoined(path, a, b);
      SplitBetween(path[..|path| - 1], '.', a + "." + b);
    }
  }

  /** The bare address is type and name: module prefix and index go, provided that no dot stands in
      the index. */
  lemma BareIs(path: string, kind: string, name: string, index: string)
    requires path == "" || path[|path| - 1] == '.'
    requires '.' !in kind && '[' !in kind && '.' !in name && '[' !in name
    requires '.' !in index && (index == "" || index[0] == '[')
    ensures BareAddress(path + kind + "." + name + index) == kind + "." + name
  {
    LastParts(path, kind, name + index);
    assert path + kind + "." + (name + index) == path + kind + "." + name + index;
    assert kind + "." + (name + index) == (kind + "." + name) + index;
    assert '[' !in kind + "." + name;
    BeforeBracket(kind + "." + name, index);
  }

  /** The text before the first dot, and after it. */
  lemma {:induction false} AtFirstDot(s: string) returns (before: string, after: string)
    requires '.' in s
    ensures s == before + "." + after && '.' !in before && |SplitOn(s, '.')| == 1 + |SplitOn(after, '.')|
  {
    if s[0] == '.' {
      before, after := "", s[1..];
    } else {
      var rest, end := AtFirstDot(s[1..]);
      before, after := [s[0]] + rest, end;
      assert s == [s[0]] + s[1..];
    }
    SplitWhole(before, '.');
    SplitBetween(before, '.', after);
  }

  /** Only the last two parts of an address matter. */
  lemma LastTwoDecide(front: string, back: string)
    requires |SplitOn(back, '.')| >= 2
    ensures BareAddress(front + "." + back) == BareAddress(back)
  {
    hide SplitOn;
    SplitBetween(front, '.', back);
  }

  /** With one dot in the index the type goes too, and the name alone is left. */
  lemma DottedIndex(path: string, kind: string, name: string, before: string, after: string)
    requires path == "" || path[|path| - 1] == '.'
    requires '.' !in kind && '.' !in name && '[' !in name && '.' !in before && '.' !in after
    requires before != "" && before[0] == '['
    ensures BareAddress(path + kind + "." + name + (before + "." + after)) == name
  {
    hide SplitOn;
    var start := path + kind + ".";
    LastParts(start, name + before, after);
    assert start + (name + before) + "." + after == path + kind + "." + name + (before + "." + after);
    assert (name + before) + "." + after == name + (before + "." + after);
    BeforeBracket(name, before + "." + after);
  }

  /** Exactly when the address of a resource, however nested and indexed, reduces to its type and name:
      its index has no dot, or has two or more and its own tail happens to spell them. */
  lemma BareExactly(path: string, kind: string, name: string, index: string)
    requires path == "" || path[|path| - 1] == '.'
    requires '.' !in kind && '[' !in kind && '.' !in name && '[' !in name
    requires index == "" || index[0] == '['
    ensures BareAddress(path + kind + "." + name + index) == kind + "." + name <==>
              '.' !in index || (|SplitOn(index, '.')| >= 3 && BareAddress(index) == kind + "." + name)
  {
    hide SplitOn, BareAddress;
    if '.' !in index {
      BareIs(path, kind, name, index);
    } else {
      var before, after := AtFirstDot(index);
      if '.' !in after {
        SplitWhole(after, '.');
        DottedIndex(path, kind, name, before, after);
        assert (kind + "." + name)[|kind|] == '.';
      } else {
        var _, end := AtFirstDot(after);
        NeverEmpty(end);
        LastTwoDecide(path + kind + "." + name + before, after);
        LastTwoDecide(before, after);
        assert path + kind + "." + name + index == (path + kind + "." + name + before) + "." + after;
      }
    }
  }

  /** A `for_each` key with a dot: the type is lost. */
  lemma DottedKeyLosesType()
    ensures BareAddress("azurerm_role.reader[\"a.b\"]") == "reader"
  {
    hide BareAddress;
    DottedIndex("", "azurerm_role", "reader", "[\"a", "b\"]");
    assert "" + "azurerm_role" + "." + "reader" + ("[\"a" + "." + "b\"]") == "azurerm_role.reader[\"a.b\"]";
  }

  lemma NeverEmpty(s: string)
    ensures |SplitOn(s, '.')| >= 1
  {
  }

  // ---------------------------------------------------------------- the relation decided

  function Kinds(actions: Actions): set<string> {
    set a | a in actions
  }

  predicate NoOp(actions: Actions) {
    Kinds(actions) == {"no-op"} || Kinds(actions) == {"read"}
  }

  /** A change is ignored when all it does is nothing, or all it does is read. */
  lemma IgnoredIs(actions: Actions)
    ensures NoOp(actions) <==>
              actions != [] && ((forall a :: a in actions ==> a == "no-op") || (forall a :: a in actions ==> a == "read"))
  {
    if actions != [] {
      assert actions[0] in Kinds(actions);
      if forall a :: a in actions ==> a == "no-op" {
        assert Kinds(actions) == {"no-op"};
      } else if forall a :: a in actions ==> a == "read" {
        assert Kinds(actions) == {"read"};
      }
    }
    if NoOp(actions) {
      assert "no-op" in {"no-op"} && "read" in {"read"};
      assert forall a :: a in actions ==> a in Kinds(actions);
    }
  }

  /** The changes that count, reduced to bare address and actions, in order. */
  function Reduced(changes: seq<Change>): seq<(string, Actions)> {
    if changes == [] then []
    else
      var last := changes[|changes| - 1];
      Reduced(changes[..|changes| - 1]) + if NoOp(last.actions) then [] else [(BareAddress(last.address), last.actions)]
  }

  function Reviewed(allow: seq<(string, string)>): seq<(string, Actions)> {
    seq(|allow|, i requires 0 <= i < |allow| => (allow[i].0, [allow[i].1]))
  }

  /** Exactly the allowlist entries, each once, in any order. */
  ghost predicate Accepts(policy: Policy, changes: seq<Change>) {
    multiset(Reduced(changes)) == multiset(Reviewed(policy.allow))
  }

  function One(b: bool): nat {
    if b then 1 else 0
  }

  function CountKind(entries: seq<(string, Actions)>, kind: string): nat {
    if entries == [] then 0
    else CountKind(entries[..|entries| - 1], kind) + One(Kinds(entries[|entries| - 1].1) == {kind})
  }

  ghost predicate GoodPolicy(policy: Policy) {
    && (forall i, j :: 0 <= i < j < |policy.allow| ==> policy.allow[i].0 != policy.allow[j].0)
    && (forall i :: 0 <= i < |policy.allow| ==> policy.allow[i].1 in {"create", "update"})
    && CountKind(Reviewed(policy.allow), "create") == policy.add
    && CountKind(Reviewed(policy.allow), "update") == policy.change
  }

  // ---------------------------------------------------------------- multisets of entries

  lemma {:induction false} CountKindAppend(a: seq<(string, Actions)>, b: seq<(string, Actions)>, kind: string)
    ensures CountKind(a + b, kind) == CountKind(a, kind) + CountKind(b, kind)
  {
    if b == [] {
      assert a + b == a;
    } else {
      assert (a + b)[..|a + b| - 1] == a + b[..|b| - 1];
      CountKindAppend(a, b[..|b| - 1], kind);
    }
  }

  lemma Without<T>(init: seq<T>, x: T)
    ensures multiset(init + [x]) == multiset(init) + multiset{x}
  {
  }

  lemma Cancel<T>(a: multiset<T>, b: multiset<T>, x: T)
    requires a + multiset{x} == b + multiset{x}
    ensures a == b
  {
    assert a == (a + multiset{x}) - multiset{x} && b == (b + multiset{x}) - multiset{x};
  }

  /** Taking an element out of both sides of a permutation. */
  lemma TakeOut<T>(a: seq<T>, b: seq<T>) returns (left: seq<T>, right: seq<T>)
    requires multiset(a) == multiset(b) && a != []
    ensures b == left + ([a[|a| - 1]] + right) && multiset(a[..|a| - 1]) == multiset(left + right)
  {
    var x, init := a[|a| - 1], a[..|a| - 1];
    assert a == init + [x];
    assert x in multiset(a);
    var k :| 0 <= k < |b| && b[k] == x;
    left, right := b[..k], b[k + 1..];
    assert b == left + ([x] + right);
    Without(init, x);
    assert multiset(b) == multiset(left) + (multiset{x} + multiset(right));
    assert multiset(left + right) == multiset(left) + multiset(right);
    assert multiset(init) + multiset{x} == multiset(left + right) + multiset{x};
    Cancel(multiset(init), multiset(left + right), x);
  }

  lemma EmptyPermuted<T>(b: seq<T>)
    requires multiset(b) == multiset{}
    ensures b == []
  {
    assert |multiset(b)| == |b|;
  }

  /** The totals depend only on which entries there are. */
  lemma {:induction false} CountKindPermuted(a: seq<(string, Actions)>, b: seq<(string, Actions)>, kind: string)
    requires multiset(a) == multiset(b)
    ensures CountKind(a, kind) == CountKind(b, kind)
    decreases |a|
  {
    hide CountKind;
    if a == [] {
      EmptyPermuted(b);
    } else {
      var x, init := a[|a| - 1], a[..|a| - 1];
      var left, right := TakeOut(a, b);
      assert a == init + [x];
      CountKindPermuted(init, left + right, kind);
      CountKindAppend(left, right, kind);
      CountKindAppend(left, [x] + right, kind);
      CountKindAppend([x], right, kind);
      CountKindAppend(init, [x], kind);
    }
  }

  function Occurrences(entries: seq<(string, Actions)>, bare: string): nat {
    if entries == [] then 0
    else Occurrences(entries[..|entries| - 1], bare) + One(entries[|entries| - 1].0 == bare)
  }

  /** The reviewed action for an address, if it is on the list. */
  function Lookup(allow: seq<(string, string)>, bare: string): (r: (bool, string))
    ensures r.0 ==> (bare, r.1) in allow
    ensures !r.0 ==> forall i :: 0 <= i < |allow| ==> allow[i].0 != bare
  {
    if allow == [] then (false, "")
    else if allow[0].0 == bare then (true, allow[0].1)
    else Lookup(allow[1..], bare)
  }

  /** Rules 1 and 2 for one entry. */
  predicate Fine(policy: Policy, entry: (string, Actions)) {
    var (listed, action) := Lookup(policy.allow, entry.0);
    "delete" !in entry.1 && listed && entry.1 == [action]
  }

  lemma LookupUnique(policy: Policy, i: nat)
    requires GoodPolicy(policy) && i < |policy.allow|
    ensures Lookup(policy.allow, policy.allow[i].0) == (true, policy.allow[i].1)
  {
    var r := Lookup(policy.allow, policy.allow[i].0);
    var k :| 0 <= k < |policy.allow| && policy.allow[k] == (policy.allow[i].0, r.1);
  }

  /** Among fine entries an address determines the entry, so the multiset counts addresses. */
  lemma {:induction false} OccurrencesCount(policy: Policy, entries: seq<(string, Actions)>, i: nat)
    requires GoodPolicy(policy) && i < |policy.allow|
    requires forall k :: 0 <= k < |entries| ==> Fine(policy, entries[k])
    ensures multiset(entries)[(policy.allow[i].0, [policy.allow[i].1])] == Occurrences(entries, policy.allow[i].0)
  {
    LookupUnique(policy, i);
    if entries != [] {
      var init, last := entries[..|entries| - 1], entries[|entries| - 1];
      OccurrencesCount(policy, init, i);
      assert entries == init + [last];
      assert Fine(policy, last);
    }
  }

  lemma ReviewedFine(policy: Policy, k: nat)
    requires GoodPolicy(policy) && k < |policy.allow|
    ensures Fine(policy, Reviewed(policy.allow)[k])
  {
    LookupUnique(policy, k);
  }

  /** Each reviewed entry occurs once among the reviewed ones. */
  lemma ReviewedOnce(policy: Policy, i: nat)
    requires GoodPolicy(policy) && i < |policy.allow|
    ensures multiset(Reviewed(policy.allow))[Reviewed(policy.allow)[i]] == 1
  {
    var r := Reviewed(policy.allow);
    var x, left, right := r[i], r[..i], r[i + 1..];
    assert r == left + [x] + right;
    assert x !in left && x !in right;
  }

  predicate OncePerEntry(policy: Policy, entries: seq<(string, Actions)>) {
    forall i :: 0 <= i < |policy.allow| ==> Occurrences(entries, policy.allow[i].0) == 1
  }

  predicate AllFine(policy: Policy, entries: seq<(string, Actions)>) {
    forall k :: 0 <= k < |entries| ==> Fine(policy, entries[k])
  }

  lemma ReviewedObeysRules(policy: Policy, entries: seq<(string, Actions)>)
    requires GoodPolicy(policy) && multiset(entries) == multiset(Reviewed(policy.allow))
    ensures AllFine(policy, entries) && OncePerEntry(policy, entries)
  {
    hide GoodPolicy, Fine, Occurrences;
    var reviewed := Reviewed(policy.allow);
    forall k | 0 <= k < |entries| ensures Fine(policy, entries[k]) {
      assert entries[k] in multiset(entries);
      var i :| 0 <= i < |reviewed| && reviewed[i] == entries[k];
      ReviewedFine(policy, i);
    }
    forall i | 0 <= i < |policy.allow| ensures Occurrences(entries, policy.allow[i].0) == 1 {
      OccurrencesCount(policy, entries, i);
      ReviewedOnce(policy, i);
    }
  }

  /** Rules 1 to 3 say exactly that the plan is the reviewed one. */
  lemma RulesAreExact(policy: Policy, entries: seq<(string, Actions)>)
    requires GoodPolicy(policy)
    ensures multiset(entries) == multiset(Reviewed(policy.allow))
            <==> AllFine(policy, entries) && OncePerEntry(policy, entries)
  {
    hide GoodPolicy, Fine, Occurrences;
    var reviewed := Reviewed(policy.allow);
    if multiset(entries) == multiset(reviewed) {
      ReviewedObeysRules(policy, entries);
    }
    if AllFine(policy, entries) && OncePerEntry(policy, entries) {
      forall x ensures multiset(entries)[x] == multiset(reviewed)[x] {
        if x in entries {
          var i := FineIsListed(policy, x);
          OccurrencesCount(policy, entries, i);
          ReviewedOnce(policy, i);
        } else if x in reviewed {
          var i :| 0 <= i < |reviewed| && reviewed[i] == x;
          OccurrencesCount(policy, entries, i);
        }
      }
    }
  }

  lemma FineIsListed(policy: Policy, entry: (string, Actions)) returns (i: nat)
    requires Fine(policy, entry)
    ensures i < |policy.allow| && entry == (policy.allow[i].0, [policy.allow[i].1])
  {
    var r := Lookup(policy.allow, entry.0);
    i :| 0 <= i < |policy.allow| && policy.allow[i] == (entry.0, r.1);
  }

  // ---------------------------------------------------------------- the evaluator

  predicate IsReplace(actions: Actions) {
    "delete" in actions && "create" in actions
  }

  function CountReplaces(entries: seq<(string, Actions)>): nat {
    if entries == [] then 0
    else CountReplaces(entries[..|entries| - 1]) + One(IsReplace(entries[|entries| - 1].1))
  }

  function Seen(seen: map<string, nat>, bare: string): nat {
    if bare in seen then seen[bare] else 0
  }

  datatype Totals = Totals(add: nat, change: nat, destroy: nat, replace: nat)

  function TotalsOf(entries: seq<(string, Actions)>): Totals {
    Totals(CountKind(entries, "create"), CountKind(entries, "update"), CountKind(entries, "delete"),
           CountReplaces(entries))
  }

  lemma ReducedStep(changes: seq<Change>, k: nat)
    requires k < |changes|
    ensures changes[..k + 1][..k] == changes[..k]
    ensures Reduced(changes[..k + 1])
         == Reduced(changes[..k]) + if NoOp(changes[k].actions) then [] else [(BareAddress(changes[k].address), changes[k].actions)]
  {
    assert changes[..k + 1][..k] == changes[..k];
  }

  lemma EntryStep(entries: seq<(string, Actions)>, entry: (string, Actions), bare: string)
    ensures var more := entries + [entry];
            && TotalsOf(more).add == TotalsOf(entries).add + One(Kinds(entry.1) == {"create"})
            && TotalsOf(more).change == TotalsOf(entries).change + One(Kinds(entry.1) == {"update"})
            && TotalsOf(more).destroy == TotalsOf(entries).destroy + One(Kinds(entry.1) == {"delete"})
            && TotalsOf(more).replace == TotalsOf(entries).replace + One(IsReplace(entry.1))
            && Occurrences(more, bare) == Occurrences(entries, bare) + One(entry.0 == bare)
  {
    assert (entries + [entry])[..|entries|] == entries;
  }

  lemma NoDeletes(policy: Policy, entries: seq<(string, Actions)>)
    requires AllFine(policy, entries)
    ensures TotalsOf(entries).destroy == 0 && TotalsOf(entries).replace == 0
    decreases |entries|
  {
    if entries != [] {
      NoDeletes(policy, entries[..|entries| - 1]);
      assert Fine(policy, entries[|entries| - 1]);
      assert "delete" !in entries[|entries| - 1].1;
      assert "delete" in {"delete"};
    }
  }

  /** Running totals: exactly one of the counters moves for a create, update, destroy or replace. */
  function Counted(totals: Totals, actions: Actions): Totals {
    if IsReplace(actions) then totals.(replace := totals.replace + 1)
    else if Kinds(actions) == {"delete"} then totals.(destroy := totals.destroy + 1)
    else if Kinds(actions) == {"create"} then totals.(add := totals.add + 1)
    else if Kinds(actions) == {"update"} then totals.(change := totals.change + 1)
    else totals
  }

  lemma CountedIs(entries: seq<(string, Actions)>, entry: (string, Actions))
    ensures Counted(TotalsOf(entries), entry.1) == TotalsOf(entries + [entry])
  {
    hide CountKind, CountReplaces;
    EntryStep(entries, entry, entry.0);
    assert "delete" in Kinds(entry.1) <==> "delete" in entry.1;
    assert "create" in Kinds(entry.1) <==> "create" in entry.1;
    assert "delete" in {"delete"} && "create" in {"create"} && "update" in {"update"};
    assert "create" !in {"delete"} && "delete" !in {"create"} && "delete" !in {"update"};
  }

  /** `evaluate`: the verdict is ok exactly when the plan is the reviewed one, and the totals are
      those of the counted changes. */
  method Evaluate(policy: Policy, changes: seq<Change>) returns (violations: seq<Violation>, totals: Totals)
    requires GoodPolicy(policy)
    ensures violations == [] <==> Accepts(policy, changes)
    ensures totals == TotalsOf(Reduced(changes))
  {
    hide GoodPolicy, TotalsOf, Occurrences, Fine, Reduced, BareAddress, IsReplace, Kinds;
    violations, totals := [], TotalsOf([]);
    var seen: map<string, nat> := map[];
    ghost var entries: seq<(string, Actions)> := [];
    NothingSeen(changes);
    for k := 0 to |changes|
      invariant entries == Reduced(changes[..k])
      invariant totals == TotalsOf(entries)
      invariant violations == [] <==> AllFine(policy, entries)
      invariant violations == [] ==> forall bare :: Seen(seen, bare) == Occurrences(entries, bare)
    {
      var address, actions := changes[k].address, changes[k].actions;
      ReducedStep(changes, k);
      if NoOp(actions) {
        continue;
      }
      ghost var entry := (BareAddress(address), actions);
      ghost var before := entries;
      CountedIs(entries, entry);
      FineStep(policy, entries, entry);
      entries := entries + [entry];
      totals := Counted(totals, actions);
      if "delete" in actions {
        violations := violations + [if IsReplace(actions) then Replaces(address) else Destroys(address)];
        continue;
      }
      var bare := BareAddress(address);
      seen := seen[bare := Seen(seen, bare) + 1];
      forall b ensures Occurrences(entries, b) == Occurrences(before, b) + One(bare == b) {
        EntryStep(before, entry, b);
      }
      var (listed, expected) := Lookup(policy.allow, bare);
      if !listed {
        violations := violations + [NotAllowed(address)];
        continue;
      }
      if actions != [expected] {
        violations := violations + [UnexpectedAction(address)];
      }
    }
    assert changes[..|changes|] == changes;
    ghost var fine := violations == [];
    for i := 0 to |policy.allow|
      invariant violations == [] <==>
                fine && forall j :: 0 <= j < i ==> Seen(seen, policy.allow[j].0) <= 1
    {
      if Seen(seen, policy.allow[i].0) > 1 {
        violations := violations + [Duplicated(policy.allow[i].0)];
      }
    }
    for i := 0 to |policy.allow|
      invariant violations == [] <==>
                (&& fine && (forall j :: 0 <= j < |policy.allow| ==> Seen(seen, policy.allow[j].0) <= 1)
                 && forall j :: 0 <= j < i ==> Seen(seen, policy.allow[j].0) >= 1)
    {
      if Seen(seen, policy.allow[i].0) == 0 {
        violations := violations + [Missing(policy.allow[i].0)];
      }
    }
    RulesAreExact(policy, entries);
    if violations == [] {
      assert OncePerEntry(policy, entries);
      ExpectedTotals(policy, changes);
    }
    if totals != Totals(policy.add, policy.change, 0, 0) {
      violations := violations + [WrongTotals];
    }
  }

  lemma NothingSeen(changes: seq<Change>)
    ensures Reduced(changes[..0]) == [] && forall bare :: Occurrences([], bare) == 0
  {
  }

  lemma FineStep(policy: Policy, entries: seq<(string, Actions)>, entry: (string, Actions))
    ensures AllFine(policy, entries + [entry]) <==> AllFine(policy, entries) && Fine(policy, entry)
    ensures Fine(policy, entry) <==>
              var (listed, action) := Lookup(policy.allow, entry.0);
              "delete" !in entry.1 && listed && entry.1 == [action]
  {
    var more := entries + [entry];
    assert more[|entries|] == entry && forall k :: 0 <= k < |entries| ==> more[k] == entries[k];
    hide Fine;
  }

  /** Rule 4 follows from the others. */
  lemma ExpectedTotals(policy: Policy, changes: seq<Change>)
    requires GoodPolicy(policy) && Accepts(policy, changes)
    ensures TotalsOf(Reduced(changes)) == Totals(policy.add, policy.change, 0, 0)
  {
    hide Fine;
    CountKindPermuted(Reduced(changes), Reviewed(policy.allow), "create");
    CountKindPermuted(Reduced(changes), Reviewed(policy.allow), "update");
    RulesAreExact(policy, Reduced(changes));
    NoDeletes(policy, Reduced(changes));
  }

  lemma {:induction false} ReducedAppend(a: seq<Change>, b: seq<Change>)
    ensures Reduced(a + b) == Reduced(a) + Reduced(b)
  {
    hide BareAddress;
    if b == [] {
      assert a + b == a;
    } else {
      assert (a + b)[..|a + b| - 1] == a + b[..|b| - 1];
      ReducedAppend(a, b[..|b| - 1]);
    }
  }

  lemma {:induction false} ReducedPermuted(a: seq<Change>, b: seq<Change>)
    requires multiset(a) == multiset(b)
    ensures multiset(Reduced(a)) == multiset(Reduced(b))
    decreases |a|
  {
    hide Reduced;
    if a == [] {
      EmptyPermuted(b);
    } else {
      var x, init := a[|a| - 1], a[..|a| - 1];
      var left, right := TakeOut(a, b);
      assert a == init + [x];
      ReducedPermuted(init, left + right);
      ReducedAppend(left, right);
      ReducedAppend(left, [x] + right);
      ReducedAppend([x], right);
      ReducedAppend(init, [x]);
    }
  }

  /** The verdict does not depend on the order of the plan. */
  lemma OrderIrrelevant(policy: Policy, a: seq<Change>, b: seq<Change>)
    requires multiset(a) == multiset(b)
    ensures Accepts(policy, a) <==> Accepts(policy, b)
  {
    hide Reduced;
    ReducedPermuted(a, b);
  }

  // ---------------------------------------------------------------- the reviewed policy

  lemma LastKind(entries: seq<(string, Actions)>, entry: (string, Actions), kind: string)
    requires |entry.1| == 1
    ensures CountKind(entries + [entry], kind) == CountKind(entries, kind) + One(entry.1[0] == kind)
  {
    assert (entries + [entry])[..|entries|] == entries;
    assert entry.1[0] in Kinds(entry.1);
    assert Kinds(entry.1) == {entry.1[0]};
  }

  /** Reviewing one more entry. */
  lemma ReviewedStep(allow: seq<(string, string)>, k: nat, kind: string)
    requires k < |allow|
    ensures CountKind(Reviewed(allow[..k + 1]), kind) == CountKind(Reviewed(allow[..k]), kind) + One(allow[k].1 == kind)
  {
    assert Reviewed(allow[..k + 1]) == Reviewed(allow[..k]) + [(allow[k].0, [allow[k].1])];
    LastKind(Reviewed(allow[..k]), (allow[k].0, [allow[k].1]), kind);
  }

  lemma P6Counts(n: nat)
    requires n <= 10
    ensures |P6.allow| == 10
    ensures CountKind(Reviewed(P6.allow[..n]), "create") == if n <= 5 then 0 else n - 5
    ensures CountKind(Reviewed(P6.allow[..n]), "update") == if n <= 5 then n else 5
  {
    if n > 0 {
      P6Counts(n - 1);
      ReviewedStep(P6.allow, n - 1, "create");
      ReviewedStep(P6.allow, n - 1, "update");
    }
  }

  /** The shipped allowlist is a good policy: its ten addresses differ, five creates, five updates. */
  lemma P6IsGood()
    ensures GoodPolicy(P6)
  {
    P6Counts(10);
    assert P6.allow[..10] == P6.allow;
    P6Distinct();
    hide CountKind;
  }

  lemma P6Distinct()
    ensures |P6.allow| == 10
    ensures forall i, j :: 0 <= i < j < 10 ==> P6.allow[i].0 != P6.allow[j].0
    ensures forall i :: 0 <= i < 10 ==> P6.allow[i].1 in {"create", "update"}
  {
    var lengths := [25, 30, 35, 32, 60, 46, 50, 47, 48, 51];
    assert forall i :: 0 <= i < 10 ==> |P6.allow[i].0| == lengths[i];
    assert forall i, j :: 0 <= i < j < 10 ==> lengths[i] != lengths[j];
  }
}
