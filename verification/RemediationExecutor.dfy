/** Execution of requested actions on the endpoint (pkg/fleet/remediate/executor.go). The source looks actions
    up through pointers into the slice of available actions and mutates them there; here a pointer is an index. */
module RemediationExecutor {
  import opened FleetTypes
  import opened RemediationActions

  const NOT_APPLICABLE := "action not applicable to current compliance state"
  const DRY_RUN := "dry run \U{2014} would execute"
  const NO_EXECUTOR := "no executor for action "

  /** What a foreign command reports. */
  datatype Outcome = Outcome(output: string, needsReboot: bool, error: Option<string>)

  /** The command an action starts; other actions have none and fail. */
  predicate HasCommand(id: ActionId) {
    id == EnableOSFIPS || id == InstallWARP || id == ConnectWARP
  }

  /** The lookup holds, for each available id, the last position with that id. */
  ghost predicate IsLookup(available: seq<Action>, lookup: map<ActionId, nat>) {
    && (forall id <- lookup :: lookup[id] < |available| && available[lookup[id]].id == id)
    && (forall k :: 0 <= k < |available| ==> available[k].id in lookup && k <= lookup[available[k].id])
  }

  /** A requested action that is available and automatic, in a real run. */
  predicate Runs(available: seq<Action>, lookup: map<ActionId, nat>, dryRun: bool, id: ActionId) {
    id in lookup && lookup[id] < |available| && available[lookup[id]].autoExec && !dryRun
  }

  /** The commands started for a list of requested actions, in order. */
  function Commands(available: seq<Action>, lookup: map<ActionId, nat>, dryRun: bool,
                    ids: seq<ActionId>): seq<ActionId> {
    if ids == [] then [] else
      var last := ids[|ids| - 1];
      Commands(available, lookup, dryRun, ids[..|ids| - 1])
      + if Runs(available, lookup, dryRun, last) && HasCommand(last) then [last] else []
  }

  /** The outcome of the next command for an action; only enabling FIPS can ask for a reboot. */
  function OutcomeOf(commands: Commander, id: ActionId, started: nat): (o: Outcome)
    ensures id in {EnableOSFIPS, InstallWARP, ConnectWARP} ==>
      o.error == commands(id, started).error && o.output == commands(id, started).output
    ensures id !in {EnableOSFIPS, InstallWARP, ConnectWARP} ==>
      o.error == Some("no executor for action " + Text(id)) && o.output == ""
    ensures o.needsReboot <==> id == EnableOSFIPS && commands(id, started).needsReboot
  {
    if !HasCommand(id) then Outcome("", false, Some(NO_EXECUTOR + Text(id)))
    else var o := commands(id, started); Outcome(o.output, id == EnableOSFIPS && o.needsReboot, o.error)
  }

  /** The result entry of one requested action, told from the actions as they were before the call. */
  function Entry(available: seq<Action>, lookup: map<ActionId, nat>, dryRun: bool, id: ActionId, o: Outcome): Action {
    if id !in lookup || lookup[id] >= |available| then Action(id, "", false, "", Skipped, NOT_APPLICABLE)
    else
      var a := available[lookup[id]];
      if !a.autoExec then a.(status := ManualOnly)
      else if dryRun then a.(status := StatusPending, output := DRY_RUN)
      else match o.error
           case Some(e) => a.(status := Failed, output := "error: " + e + "\n" + o.output)
           case None => a.(status := if o.needsReboot then NeedsReboot else Succeeded, output := o.output)
  }

  type Commander = (ActionId, nat) -> Outcome

  /** The entry of the action requested after `earlier`. */
  function EntryAfter(available: seq<Action>, lookup: map<ActionId, nat>, dryRun: bool, commands: Commander,
                      earlier: seq<ActionId>, id: ActionId): Action {
    Entry(available, lookup, dryRun, id, OutcomeOf(commands, id, |Commands(available, lookup, dryRun, earlier)|))
  }

  /** All entries, in the order requested. */
  function Entries(available: seq<Action>, lookup: map<ActionId, nat>, dryRun: bool, commands: Commander,
                   ids: seq<ActionId>): seq<Action> {
    if ids == [] then [] else
      var init, last := ids[..|ids| - 1], ids[|ids| - 1];
      Entries(available, lookup, dryRun, commands, init) + [EntryAfter(available, lookup, dryRun, commands, init, last)]
  }

  /** The slice of available actions after the pointers have been written through. */
  function Progress(available: seq<Action>, lookup: map<ActionId, nat>, dryRun: bool, commands: Commander,
                    ids: seq<ActionId>): (r: seq<Action>)
    ensures |r| == |available|
  {
    if ids == [] then available else
      var init, last := ids[..|ids| - 1], ids[|ids| - 1];
      var sofar := Progress(available, lookup, dryRun, commands, init);
      if last in lookup && lookup[last] < |available|
      then sofar[lookup[last] := EntryAfter(available, lookup, dryRun, commands, init, last)]
      else sofar
  }

  /** One more requested action: its entry, its trace in the slice, its command. */
  lemma OneMoreEntry(available: seq<Action>, lookup: map<ActionId, nat>, dryRun: bool, commands: Commander,
                     ids: seq<ActionId>, id: ActionId)
    ensures Entries(available, lookup, dryRun, commands, ids + [id])
         == Entries(available, lookup, dryRun, commands, ids) + [EntryAfter(available, lookup, dryRun, commands, ids, id)]
  {
    assert (ids + [id])[..|ids + [id]| - 1] == ids;
  }

  lemma OneMoreProgress(available: seq<Action>, lookup: map<ActionId, nat>, dryRun: bool, commands: Commander,
                        ids: seq<ActionId>, id: ActionId)
    requires IsLookup(available, lookup)
    ensures Progress(available, lookup, dryRun, commands, ids + [id])
         == if id in lookup
            then Progress(available, lookup, dryRun, commands, ids)
                   [lookup[id] := EntryAfter(available, lookup, dryRun, commands, ids, id)]
            else Progress(available, lookup, dryRun, commands, ids)
  {
    assert (ids + [id])[..|ids + [id]| - 1] == ids;
  }

  lemma OneMoreCommand(available: seq<Action>, lookup: map<ActionId, nat>, dryRun: bool, ids: seq<ActionId>,
                       id: ActionId)
    ensures Commands(available, lookup, dryRun, ids + [id])
         == Commands(available, lookup, dryRun, ids) + if Runs(available, lookup, dryRun, id) && HasCommand(id) then [id] else []
  {
    assert (ids + [id])[..|ids + [id]| - 1] == ids;
  }

  lemma {:induction false} ProgressKeepsActions(available: seq<Action>, lookup: map<ActionId, nat>, dryRun: bool,
                                                commands: Commander, ids: seq<ActionId>)
    requires IsLookup(available, lookup)
    ensures var after := Progress(available, lookup, dryRun, commands, ids);
      forall k :: 0 <= k < |available| ==> SameButProgress(after[k], available[k])
    ensures var after := Progress(available, lookup, dryRun, commands, ids);
      forall k :: 0 <= k < |available| && available[k].id !in ids ==> after[k] == available[k]
  {
    if ids == [] {
    } else {
      ProgressKeepsActions(available, lookup, dryRun, commands, ids[..|ids| - 1]);
    }
  }

  /** Entry by entry: as many as requested, each decided by its own command alone. */
  lemma {:induction false} EntriesAt(available: seq<Action>, lookup: map<ActionId, nat>, dryRun: bool,
                                     commands: Commander, ids: seq<ActionId>, i: nat)
    requires i < |ids|
    ensures |Entries(available, lookup, dryRun, commands, ids)| == |ids|
    ensures Entries(available, lookup, dryRun, commands, ids)[i] == EntryAfter(available, lookup, dryRun, commands, ids[..i], ids[i])
  {
    var init := ids[..|ids| - 1];
    if |ids| == 1 {
      assert ids[..i] == [] == init;
    } else {
      EntriesAt(available, lookup, dryRun, commands, init, if i < |init| then i else 0);
      assert ids[..i] == if i < |init| then init[..i] else init;
    }
  }

  /** Equal up to status and output; actions that are not automatic keep their output too. */
  predicate SameButProgress(a: Action, b: Action) {
    a == b.(status := a.status, output := a.output) && (!b.autoExec ==> a.output == b.output)
  }

  class Executor {
    /** The commands started so far. */
    var started: seq<ActionId>

    constructor ()
      ensures started == []
    {
      started := [];
    }

    method BuildLookup(available: array<Action>) returns (lookup: map<ActionId, nat>)
      ensures IsLookup(available[..], lookup)
    {
      lookup := map[];
      for i := 0 to available.Length
        invariant IsLookup(available[..i], lookup)
      {
        assert available[..i + 1] == available[..i] + [available[i]];
        lookup := lookup[available[i].id := i];
      }
      assert available[..available.Length] == available[..];
    }

    /** The switch over the action; `commands` decides what the n-th command since `base` reports. */
    method Run(id: ActionId, commands: Commander, base: nat) returns (o: Outcome)
      requires base <= |started|
      modifies this
      ensures o == OutcomeOf(commands, id, |old(started)| - base)
      ensures started == old(started) + if HasCommand(id) then [id] else []
    {
      match id {
        case EnableOSFIPS =>
          o := commands(id, |started| - base);
          started := started + [id];
        case InstallWARP =>
          o := commands(id, |started| - base).(needsReboot := false);
          started := started + [id];
        case ConnectWARP =>
          o := commands(id, |started| - base).(needsReboot := false);
          started := started + [id];
        case _ =>
          o := Outcome("", false, Some(NO_EXECUTOR + Text(id)));
      }
    }

    /** The loop body for an available action, mutated in place; the caller appends a copy. */
    method Perform(a: Action, dryRun: bool, commands: Commander, base: nat) returns (done: Action)
      requires base <= |started|
      modifies this
      ensures started == old(started) + if a.autoExec && !dryRun && HasCommand(a.id) then [a.id] else []
      ensures done == Entry([a], map[a.id := 0], dryRun, a.id, OutcomeOf(commands, a.id, |old(started)| - base))
    {
      done := a;
      if !a.autoExec {
        done := done.(status := ManualOnly);
        return;
      }
      if dryRun {
        done := done.(status := StatusPending, output := DRY_RUN);
        return;
      }
      done := done.(status := Executing);
      var o := Run(a.id, commands, base);
      done := done.(output := o.output);
      match o.error {
        case Some(e) =>
          done := done.(status := Failed, output := "error: " + e + "\n" + o.output);
        case None =>
          done := done.(status := if o.needsReboot then NeedsReboot else Succeeded);
      }
    }

    /** The loop body: one requested action after those in `earlier`. */
    method ExecuteOne(id: ActionId, found: map<ActionId, nat>, dryRun: bool, available: array<Action>,
                      commands: Commander, base: nat, ghost before: seq<Action>, ghost earlier: seq<ActionId>)
      returns (entry: Action)
      requires IsLookup(before, found) && available.Length == |before|
      requires forall k :: 0 <= k < |before| ==> SameButProgress(available[k], before[k])
      requires |started| - base == |Commands(before, found, dryRun, earlier)|
      modifies this, available
      ensures entry == EntryAfter(before, found, dryRun, commands, earlier, id)
      ensures available[..] == if id in found then old(available[..])[found[id] := entry] else old(available[..])
      ensures started == old(started) + if Runs(before, found, dryRun, id) && HasCommand(id) then [id] else []
    {
      if id !in found {
        entry := Action(id, "", false, "", Skipped, NOT_APPLICABLE);
      } else {
        var a := available[found[id]];
        EntryFromProgress(before, found, a, dryRun, id, OutcomeOf(commands, id, |started| - base));
        entry := Perform(a, dryRun, commands, base);
        available[found[id]] := entry;
      }
    }

    /** Every requested action gets one entry, in order, told from the actions before the call and the
        outcome of its own command, however often the same action is mutated through its pointer. */
    method Execute(ids: seq<ActionId>, dryRun: bool, available: array<Action>, commands: Commander)
      returns (results: seq<Action>, ghost lookup: map<ActionId, nat>)
      modifies this, available
      ensures IsLookup(old(available[..]), lookup)
      ensures results == Entries(old(available[..]), lookup, dryRun, commands, ids) && |results| == |ids|
      ensures forall i :: 0 <= i < |ids| ==>
        Told(old(available[..]), lookup, dryRun, ids[i],
             OutcomeOf(commands, ids[i], |Commands(old(available[..]), lookup, dryRun, ids[..i])|), results[i])
      ensures available[..] == Progress(old(available[..]), lookup, dryRun, commands, ids)
      ensures started == old(started) + Commands(old(available[..]), lookup, dryRun, ids)
    {
      var found := BuildLookup(available);
      lookup := found;
      ResultsAreTold(available[..], found, dryRun, commands, ids);
      results := ExecuteAll(ids, dryRun, available, commands, found);
    }

    /** The loop over the requested actions. */
    method ExecuteAll(ids: seq<ActionId>, dryRun: bool, available: array<Action>, commands: Commander,
                      found: map<ActionId, nat>)
      returns (results: seq<Action>)
      requires IsLookup(available[..], found)
      modifies this, available
      ensures results == Entries(old(available[..]), found, dryRun, commands, ids)
      ensures available[..] == Progress(old(available[..]), found, dryRun, commands, ids)
      ensures started == old(started) + Commands(old(available[..]), found, dryRun, ids)
    {
      var base := |started|;
      ghost var before := available[..];
      results := [];
      ghost var done: seq<ActionId> := [];
      for i := 0 to |ids|
        invariant done == ids[..i]
        invariant results == Entries(before, found, dryRun, commands, done)
        invariant available[..] == Progress(before, found, dryRun, commands, done)
        invariant started == old(started) + Commands(before, found, dryRun, done)
      {
        var entry := ExecuteNext(ids[i], found, dryRun, available, commands, base, old(started), before, done);
        results := results + [entry];
        done := done + [ids[i]];
      }
      assert done == ids;
    }

    /** The loop body, told from the progress so far. */
    method ExecuteNext(id: ActionId, found: map<ActionId, nat>, dryRun: bool, available: array<Action>,
                       commands: Commander, base: nat, ghost first: seq<ActionId>, ghost before: seq<Action>,
                       ghost earlier: seq<ActionId>)
      returns (entry: Action)
      requires IsLookup(before, found) && available[..] == Progress(before, found, dryRun, commands, earlier)
      requires |first| == base && started == first + Commands(before, found, dryRun, earlier)
      modifies this, available
      ensures entry == EntryAfter(before, found, dryRun, commands, earlier, id)
      ensures available[..] == Progress(before, found, dryRun, commands, earlier + [id])
      ensures Entries(before, found, dryRun, commands, earlier + [id]) == Entries(before, found, dryRun, commands, earlier) + [entry]
      ensures started == first + Commands(before, found, dryRun, earlier + [id])
    {
      OneMoreEntry(before, found, dryRun, commands, earlier, id);
      OneMoreProgress(before, found, dryRun, commands, earlier, id);
      StartedMore(first, before, found, dryRun, earlier, id);
      KeptActions(available, before, found, dryRun, commands, earlier);
      entry := ExecuteOne(id, found, dryRun, available, commands, base, before, earlier);
    }

    lemma StartedMore(first: seq<ActionId>, before: seq<Action>, found: map<ActionId, nat>, dryRun: bool,
                      earlier: seq<ActionId>, id: ActionId)
      ensures first + Commands(before, found, dryRun, earlier + [id])
           == (first + Commands(before, found, dryRun, earlier))
              + if Runs(before, found, dryRun, id) && HasCommand(id) then [id] else []
    {
      OneMoreCommand(before, found, dryRun, earlier, id);
      Associates(first, Commands(before, found, dryRun, earlier),
                 if Runs(before, found, dryRun, id) && HasCommand(id) then [id] else []);
    }

    lemma KeptActions(available: array<Action>, before: seq<Action>, found: map<ActionId, nat>, dryRun: bool,
                      commands: Commander, earlier: seq<ActionId>)
      requires IsLookup(before, found) && available[..] == Progress(before, found, dryRun, commands, earlier)
      ensures available.Length == |before| && forall k :: 0 <= k < |before| ==> SameButProgress(available[k], before[k])
    {
      ProgressKeepsActions(before, found, dryRun, commands, earlier);
      SameAt(available, Progress(before, found, dryRun, commands, earlier), before);
    }

    lemma SameAt(available: array<Action>, now: seq<Action>, before: seq<Action>)
      requires available[..] == now && |now| == |before|
      requires forall k :: 0 <= k < |before| ==> SameButProgress(now[k], before[k])
      ensures forall k :: 0 <= k < |before| ==> SameButProgress(available[k], before[k])
    {
      assert forall k :: 0 <= k < |before| ==> available[k] == available[..][k];
    }
  }

  /** Earlier progress on an action does not show in a later entry. */
  lemma EntryFromProgress(before: seq<Action>, lookup: map<ActionId, nat>, a: Action, dryRun: bool, id: ActionId,
                          o: Outcome)
    requires IsLookup(before, lookup) && id in lookup && SameButProgress(a, before[lookup[id]])
    ensures Entry([a], map[a.id := 0], dryRun, a.id, o) == Entry(before, lookup, dryRun, id, o)
    ensures SameButProgress(Entry(before, lookup, dryRun, id, o), before[lookup[id]])
  {
  }

  /** The status and the output of an entry, told from the action as it was before the call and from what its
      command reported. The seven cases are exclusive and leave no entry executing. */
  ghost predicate Told(available: seq<Action>, lookup: map<ActionId, nat>, dryRun: bool, id: ActionId, o: Outcome,
                       e: Action) {
    var found := id in lookup && lookup[id] < |available|;
    var auto := found && available[lookup[id]].autoExec;
    && e.id == id
    && (e.status == Skipped <==> forall a <- available :: a.id != id)
    && (e.status == ManualOnly <==> found && !auto)
    && (e.status == StatusPending <==> auto && dryRun)
    && (e.status == Failed <==> auto && !dryRun && o.error.Some?)
    && (e.status == NeedsReboot <==> auto && !dryRun && o.error.None? && o.needsReboot)
    && (e.status == Succeeded <==> auto && !dryRun && o.error.None? && !o.needsReboot)
    && (e.status == Failed ==> o.error.Some? && e.output == "error: " + o.error.value + "\n" + o.output)
    && (e.status == Succeeded || e.status == NeedsReboot ==> e.output == o.output)
    && (e.status == StatusPending ==> e.output == DRY_RUN)
    && (e.status == Skipped ==> e.output == "action not applicable to current compliance state" && !e.autoExec)
    && (found ==> SameButProgress(e, available[lookup[id]]))
  }

  lemma EntriesAreFinal(available: seq<Action>, lookup: map<ActionId, nat>, dryRun: bool, id: ActionId, o: Outcome)
    requires IsLookup(available, lookup)
    ensures Told(available, lookup, dryRun, id, o, Entry(available, lookup, dryRun, id, o))
  {
    if id !in lookup {
      assert forall a <- available :: a.id != id;
    }
  }

  /** Each result is told by the outcome of its own command: the one started after those of earlier results. */
  lemma ResultsAreTold(available: seq<Action>, lookup: map<ActionId, nat>, dryRun: bool, commands: Commander,
                       ids: seq<ActionId>)
    requires IsLookup(available, lookup)
    ensures var results := Entries(available, lookup, dryRun, commands, ids);
      && |results| == |ids|
      && forall i :: 0 <= i < |ids| ==>
           Told(available, lookup, dryRun, ids[i],
                OutcomeOf(commands, ids[i], |Commands(available, lookup, dryRun, ids[..i])|), results[i])
  {
    if ids != [] {
      EntriesAt(available, lookup, dryRun, commands, ids, 0);
    }
    forall i | 0 <= i < |ids|
      ensures Told(available, lookup, dryRun, ids[i],
                   OutcomeOf(commands, ids[i], |Commands(available, lookup, dryRun, ids[..i])|),
                   Entries(available, lookup, dryRun, commands, ids)[i])
    {
      EntriesAt(available, lookup, dryRun, commands, ids, i);
      EntriesAreFinal(available, lookup, dryRun, ids[i],
                      OutcomeOf(commands, ids[i], |Commands(available, lookup, dryRun, ids[..i])|));
    }
  }

  /** Commands are started for the requested, available, automatic actions, as often as requested, and for
      nothing in a dry run. */
  lemma {:induction false} CommandsAreRequested(available: seq<Action>, lookup: map<ActionId, nat>, dryRun: bool,
                                                ids: seq<ActionId>, id: ActionId)
    ensures multiset(Commands(available, lookup, dryRun, ids))[id]
         == if Runs(available, lookup, dryRun, id) && HasCommand(id) then multiset(ids)[id] else 0
    ensures dryRun ==> Commands(available, lookup, dryRun, ids) == []
  {
    if ids == [] {
    } else {
      var init, last := ids[..|ids| - 1], ids[|ids| - 1];
      CommandsAreRequested(available, lookup, dryRun, init, id);
      assert ids == init + [last];
      RequestedMore(available, lookup, dryRun, init, last, id);
    }
  }

  lemma RequestedMore(available: seq<Action>, lookup: map<ActionId, nat>, dryRun: bool, ids: seq<ActionId>,
                      last: ActionId, id: ActionId)
    ensures var before, after := Commands(available, lookup, dryRun, ids), Commands(available, lookup, dryRun, ids + [last]);
      && multiset(ids + [last])[id] == multiset(ids)[id] + (if last == id then 1 else 0)
      && multiset(after)[id] == multiset(before)[id]
           + (if last == id && Runs(available, lookup, dryRun, id) && HasCommand(id) then 1 else 0)
      && (dryRun ==> after == before)
  {
    OneMoreCommand(available, lookup, dryRun, ids, last);
    CopiesMore(ids, last, true, id);
    CopiesMore(Commands(available, lookup, dryRun, ids), last, Runs(available, lookup, dryRun, last) && HasCommand(last), id);
  }

  lemma CopiesMore(s: seq<ActionId>, x: ActionId, added: bool, id: ActionId)
    ensures var longer := s + if added then [x] else [];
      && multiset(longer)[id] == multiset(s)[id] + (if added && x == id then 1 else 0)
      && (!added ==> longer == s)
  {
    assert s + [] == s;
  }
}
