/** The stale-plan sweep over the engine cache (src/embedder/trt_cache_gc.rs). */
module TrtCacheGc {
  import opened Numbers
  import opened Outcomes
  import opened SmTags
  import opened Sorting

  const PROFILE := ".profile"
  const TIMING := ".timing_cache"

  datatype GcStats = GcStats(plansDeleted: nat, bytesFreed: nat, otherSms: seq<string>)

  function Saturate(n: nat): nat { Min(n, U64_MAX) }

  function SaturatingAdd(x: nat, y: nat): nat { Saturate(x + y) }

  /** The tag of a plan that is not the current device's. */
  function StaleTag(name: string, current: string): Option<string> {
    var stem := StripSuffix(name, ENGINE);
    if stem.None? then None
    else
      var tag := ExtractSmTag(stem.value);
      if tag == Some(current) then None else tag
  }

  /** The plan a sidecar belongs to. */
  function PlanOf(name: string): Option<string> {
    var stem := if HasSuffix(name, PROFILE) then StripSuffix(name, PROFILE) else StripSuffix(name, TIMING);
    if stem.Some? && HasSuffix(stem.value, ENGINE) then stem else None
  }

  /** A plan is stale exactly when it matches some well-formed tag other than the current one. */
  lemma StaleIff(name: string, current: string, tag: string)
    ensures StaleTag(name, current) == Some(tag) <==>
      WellFormedTag(tag) && MatchesSmSuffix(name, tag) && tag != current
  {
    if MatchesSmSuffix(name, tag) {
      EndsInEngine(name, tag);
    }
    if HasSuffix(name, ENGINE) {
      var stem := name[..|name| - |ENGINE|];
      assert name == stem + ENGINE;
      ExtractedWellFormed(stem);
      if WellFormedTag(tag) {
        ExtractAgreesWithEnumerator(stem, tag);
      }
    }
    hide ExtractSmTag, WellFormedTag, MatchesSmSuffix;
  }

  /** A file is a plan's sidecar exactly when its name is the plan's with one of the two endings. */
  lemma SidecarIff(name: string, plan: string)
    ensures PlanOf(name) == Some(plan) <==>
      HasSuffix(plan, ".engine") && (name == plan + ".profile" || name == plan + ".timing_cache")
  {
    SuffixAppended(plan, PROFILE);
    SuffixAppended(plan, TIMING);
    if HasSuffix(name, PROFILE) {
      assert name == name[..|name| - |PROFILE|] + PROFILE;
      SuffixChar(name, PROFILE);
    }
    if HasSuffix(name, TIMING) {
      assert name == name[..|name| - |TIMING|] + TIMING;
      SuffixChar(name, TIMING);
    }
  }

  lemma SuffixAppended(s: string, suffix: string)
    ensures HasSuffix(s + suffix, suffix) && (s + suffix)[..|s + suffix| - |suffix|] == s
  {}

  type Files = map<string, nat>

  /** The plans the sweep removes: stale, and deletable. */
  ghost function DeletedPlans(files: Files, current: string, undeletable: set<string>): set<string> {
    set f | f in files && StaleTag(f, current).Some? && f !in undeletable
  }

  /** The sidecars it removes: deletable, of a plan it removed. */
  ghost function DeletedSidecars(files: Files, current: string, undeletable: set<string>): set<string> {
    set f | f in files && PlanOf(f).Some? && PlanOf(f).value in DeletedPlans(files, current, undeletable) && f !in undeletable
  }

  ghost function AfterGc(files: Files, current: string, undeletable: set<string>): Files {
    files - (DeletedPlans(files, current, undeletable) + DeletedSidecars(files, current, undeletable))
  }

  /** Bytes in the listed files. */
  function Bytes(files: Files, names: seq<string>): nat {
    if names == [] then 0
    else
      var last := names[|names| - 1];
      Bytes(files, names[..|names| - 1]) + if last in files then files[last] else 0
  }

  predicate Lists(names: seq<string>, files: Files) {
    Distinct(names) && ToSet(names) == files.Keys
  }

  lemma {:induction false} BytesUnlisted(files: Files, names: seq<string>, x: string)
    requires x !in names
    ensures Bytes(files - {x}, names) == Bytes(files, names)
  {
    if names != [] {
      BytesUnlisted(files, names[..|names| - 1], x);
    }
  }

  lemma {:induction false} BytesRemoved(files: Files, names: seq<string>, x: string)
    requires Distinct(names) && x in names && x in files
    ensures Bytes(files, names) == Bytes(files - {x}, names) + files[x]
  {
    var last := |names| - 1;
    if names[last] == x {
      BytesUnlisted(files, names[..last], x);
    } else {
      BytesRemoved(files, names[..last], x);
    }
  }

  /** Every listing of the original files agrees on how much is gone. */
  ghost predicate Freed(before: Files, now: Files, freed: nat) {
    forall names :: Lists(names, before) ==> Bytes(before, names) == Bytes(now, names) + freed
  }

  lemma FreeOne(before: Files, now: Files, freed: nat, x: string)
    requires Freed(before, now, freed) && x in now && now.Keys <= before.Keys
    ensures Freed(before, now - {x}, freed + now[x])
  {
    forall names | Lists(names, before) ensures Bytes(before, names) == Bytes(now - {x}, names) + (freed + now[x]) {
      assert x in ToSet(names);
      BytesRemoved(now, names, x);
    }
  }

  /** The cache directory: regular files by name and size; some cannot be deleted. */
  class EngineCache {
    var files: Files
    const undeletable: set<string>

    constructor (files: Files, undeletable: set<string>)
      ensures this.files == files && this.undeletable == undeletable
    {
      this.files, this.undeletable := files, undeletable;
    }

    method RemoveFile(name: string) returns (ok: bool)
      requires name in files
      modifies this
      ensures ok <==> name !in undeletable
      ensures files == if ok then old(files) - {name} else old(files)
    {
      ok := name !in undeletable;
      if ok {
        files := files - {name};
      }
    }

    /** The directory in whatever order the file system lists it. */
    method ReadDir() returns (names: seq<string>)
      ensures Lists(names, files)
    {
      names := [];
      var rest := files.Keys;
      while rest != {}
        invariant Distinct(names) && ToSet(names) + rest == files.Keys && ToSet(names) !! rest
        decreases |rest|
      {
        var f :| f in rest;
        assert forall i :: 0 <= i < |names| ==> names[i] in ToSet(names);
        assert ToSet(names + [f]) == ToSet(names) + {f};
        names, rest := names + [f], rest - {f};
      }
    }

    /** First pass: the stale plans. */
    method PlanPass(current: string) returns (stats: GcStats, deletions: seq<string>, ghost freed: nat)
      modifies this
      ensures PlansGone(old(files), files, old(files).Keys, current, undeletable, stats, deletions, freed)
    {
      var names := ReadDir();
      stats, deletions, freed := GcStats(0, 0, []), [], 0;
      NothingGone(files, current, undeletable);
      hide PlansGone, StaleTag;
      assert ToSet(names[..0]) == {};
      for i := 0 to |names|
        invariant PlansGone(old(files), files, ToSet(names[..i]), current, undeletable, stats, deletions, freed)
      {
        NextName(names, i);
        var name := names[i];
        StillThere(old(files), files, ToSet(names[..i]), current, undeletable, stats, deletions, freed, name);
        var tag := StaleTag(name, current);
        if tag.None? {
          KeepOne(old(files), files, ToSet(names[..i]), current, undeletable, stats, deletions, freed, name);
          continue;
        }
        var planBytes := files[name];
        ghost var now := files;
        var ok := RemoveFile(name);
        if ok {
          DeleteOne(old(files), now, ToSet(names[..i]), current, undeletable, stats, deletions, freed, name);
          freed := freed + planBytes;
          deletions := deletions + [name];
          stats := CountPlan(stats, planBytes, tag.value);
        } else {
          KeepOne(old(files), files, ToSet(names[..i]), current, undeletable, stats, deletions, freed, name);
        }
      }
      assert names[..|names|] == names;
    }

    /** Second pass: the sidecars of the plans just deleted. */
    method SidecarPass(plans: seq<string>, stats: GcStats, ghost before: Files, ghost freed: nat)
      returns (stats': GcStats, ghost freed': nat)
      requires stats.bytesFreed == Saturate(freed) && Freed(before, files, freed) && files.Keys <= before.Keys
      modifies this
      ensures SidecarsGone(before, old(files), files, old(files).Keys, ToSet(plans), undeletable, stats', freed')
      ensures stats' == stats.(bytesFreed := stats'.bytesFreed)
    {
      var names := ReadDir();
      stats', freed' := stats, freed;
      assert ToSet(names[..0]) == {};
      assert files - {} == files;
      for i := 0 to |names|
        invariant SidecarsGone(before, old(files), files, ToSet(names[..i]), ToSet(plans), undeletable, stats', freed')
        invariant stats' == stats.(bytesFreed := stats'.bytesFreed)
      {
        hide SidecarsGone, PlanOf;
        NextName(names, i);
        var name := names[i];
        ghost var now, seen := files, ToSet(names[..i]);
        SidecarThere(before, old(files), now, seen, ToSet(plans), undeletable, stats', freed', name);
        if PlanOf(name).Some? && PlanOf(name).value in plans {
          var sidecarBytes := files[name];
          var ok := RemoveFile(name);
          if ok {
            DropSidecar(before, old(files), now, seen, ToSet(plans), undeletable, stats', freed', name);
            freed' := freed' + sidecarBytes;
            stats' := stats'.(bytesFreed := SaturatingAdd(stats'.bytesFreed, sidecarBytes));
          } else {
            KeepSidecar(before, old(files), now, seen, ToSet(plans), undeletable, stats', freed', name);
          }
        } else {
          KeepSidecar(before, old(files), now, seen, ToSet(plans), undeletable, stats', freed', name);
        }
      }
      assert names[..|names|] == names;
    }

    /** gc_stale_sm_plans: removes exactly the deletable stale plans and the deletable sidecars of
        those, and accounts for every byte. */
    method GcStaleSmPlans(current: string) returns (stats: GcStats, ghost freed: nat)
      modifies this
      ensures files == AfterGc(old(files), current, undeletable)
      ensures stats.plansDeleted == |DeletedPlans(old(files), current, undeletable)|
      ensures stats.bytesFreed == Saturate(freed) && Freed(old(files), files, freed)
      ensures TagsOf(stats.otherSms, DeletedPlans(old(files), current, undeletable), current)
    {
      var deletions;
      stats, deletions, freed := PlanPass(current);
      PlansAllGone(old(files), files, current, undeletable, stats, deletions, freed);
      if deletions == [] {
        NoPlansNoSidecars(old(files), current, undeletable);
        return;
      }
      ghost var mid := files;
      stats, freed := SidecarPass(deletions, stats, old(files), freed);
      SidecarsAllGone(old(files), mid, files, current, undeletable, stats, freed);
    }
  }

  function CountPlan(stats: GcStats, bytes: nat, tag: string): GcStats {
    GcStats(stats.plansDeleted + 1, SaturatingAdd(stats.bytesFreed, bytes),
            if tag in stats.otherSms then stats.otherSms else stats.otherSms + [tag])
  }

  /** The plan pass after looking at the names seen: exactly the stale deletable ones among them
      are gone and accounted for. */
  ghost predicate PlansGone(before: Files, now: Files, seen: set<string>, current: string, undeletable: set<string>,
                            stats: GcStats, deletions: seq<string>, freed: nat) {
    && Distinct(deletions)
    && ToSet(deletions) == DeletedPlans(before, current, undeletable) * seen
    && now == before - ToSet(deletions)
    && stats.plansDeleted == |deletions| && stats.bytesFreed == Saturate(freed)
    && Freed(before, now, freed)
    && TagsOf(stats.otherSms, ToSet(deletions), current)
  }

  lemma NothingGone(files: Files, current: string, undeletable: set<string>)
    ensures PlansGone(files, files, {}, current, undeletable, GcStats(0, 0, []), [], 0)
  {
    assert files - ToSet([]) == files;
  }

  lemma StillThere(before: Files, now: Files, seen: set<string>, current: string, undeletable: set<string>,
                   stats: GcStats, deletions: seq<string>, freed: nat, name: string)
    requires PlansGone(before, now, seen, current, undeletable, stats, deletions, freed)
    requires name in before && name !in seen
    ensures name in now
  {
    hide Freed, TagsOf, StaleTag;
  }

  lemma KeepOne(before: Files, now: Files, seen: set<string>, current: string, undeletable: set<string>,
                stats: GcStats, deletions: seq<string>, freed: nat, name: string)
    requires PlansGone(before, now, seen, current, undeletable, stats, deletions, freed)
    requires StaleTag(name, current).None? || name in undeletable
    ensures PlansGone(before, now, seen + {name}, current, undeletable, stats, deletions, freed)
  {
    hide Freed, TagsOf, StaleTag;
    assert DeletedPlans(before, current, undeletable) * (seen + {name}) == DeletedPlans(before, current, undeletable) * seen;
  }

  lemma DeleteOne(before: Files, now: Files, seen: set<string>, current: string, undeletable: set<string>,
                  stats: GcStats, deletions: seq<string>, freed: nat, name: string)
    requires PlansGone(before, now, seen, current, undeletable, stats, deletions, freed)
    requires name in now && name !in seen && name !in undeletable && StaleTag(name, current).Some?
    ensures PlansGone(before, now - {name}, seen + {name}, current, undeletable,
                      CountPlan(stats, now[name], StaleTag(name, current).value), deletions + [name], freed + now[name])
  {
    FreeOne(before, now, freed, name);
    Appended(deletions, name);
    TagsGrow(stats.otherSms, ToSet(deletions), current, name);
    var gone := DeletedPlans(before, current, undeletable);
    assert name in gone;
    assert name !in ToSet(deletions);
    hide Freed, TagsOf, StaleTag, DeletedPlans, Distinct, ToSet;
    OneMore(gone, seen, name);
    OneLess(before, ToSet(deletions), name);
  }

  lemma OneMore(gone: set<string>, seen: set<string>, name: string)
    requires name in gone
    ensures gone * (seen + {name}) == gone * seen + {name}
  {}

  lemma OneLess(before: Files, gone: set<string>, name: string)
    ensures before - gone - {name} == before - (gone + {name})
  {}

  /** The sidecars in a directory whose plan is among the given ones and which can be deleted. */
  ghost function SidecarsOf(files: Files, plans: set<string>, undeletable: set<string>): set<string> {
    set f | f in files && PlanOf(f).Some? && PlanOf(f).value in plans && f !in undeletable
  }

  ghost predicate SidecarsGone(before: Files, mid: Files, now: Files, seen: set<string>, plans: set<string>,
                               undeletable: set<string>, stats: GcStats, freed: nat) {
    && now == mid - (SidecarsOf(mid, plans, undeletable) * seen)
    && stats.bytesFreed == Saturate(freed)
    && Freed(before, now, freed)
    && mid.Keys <= before.Keys
  }

  lemma SidecarThere(before: Files, mid: Files, now: Files, seen: set<string>, plans: set<string>,
                     undeletable: set<string>, stats: GcStats, freed: nat, name: string)
    requires SidecarsGone(before, mid, now, seen, plans, undeletable, stats, freed)
    requires name in mid && name !in seen
    ensures name in now
  {
    hide Freed, PlanOf;
  }

  lemma KeepSidecar(before: Files, mid: Files, now: Files, seen: set<string>, plans: set<string>,
                    undeletable: set<string>, stats: GcStats, freed: nat, name: string)
    requires SidecarsGone(before, mid, now, seen, plans, undeletable, stats, freed)
    requires name in undeletable || PlanOf(name).None? || PlanOf(name).value !in plans
    ensures SidecarsGone(before, mid, now, seen + {name}, plans, undeletable, stats, freed)
  {
    hide Freed, PlanOf;
    var gone := SidecarsOf(mid, plans, undeletable);
    assert gone * (seen + {name}) == gone * seen;
  }

  lemma DropSidecar(before: Files, mid: Files, now: Files, seen: set<string>, plans: set<string>,
                    undeletable: set<string>, stats: GcStats, freed: nat, name: string)
    requires SidecarsGone(before, mid, now, seen, plans, undeletable, stats, freed)
    requires name in now && name !in undeletable && PlanOf(name).Some? && PlanOf(name).value in plans
    ensures SidecarsGone(before, mid, now - {name}, seen + {name}, plans, undeletable,
                         stats.(bytesFreed := SaturatingAdd(stats.bytesFreed, now[name])), freed + now[name])
  {
    var gone := SidecarsOf(mid, plans, undeletable);
    assert name in gone && now.Keys <= before.Keys;
    FreeOne(before, now, freed, name);
    hide Freed, PlanOf, SidecarsOf;
    OneMore(gone, seen, name);
    OneLess(mid, gone * seen, name);
  }

  lemma PlansAllGone(before: Files, now: Files, current: string, undeletable: set<string>,
                     stats: GcStats, deletions: seq<string>, freed: nat)
    requires PlansGone(before, now, before.Keys, current, undeletable, stats, deletions, freed)
    ensures var plans := DeletedPlans(before, current, undeletable);
      && ToSet(deletions) == plans && now == before - plans && |deletions| == |plans| && TagsOf(stats.otherSms, plans, current)
    ensures stats.plansDeleted == |deletions| && stats.bytesFreed == Saturate(freed) && Freed(before, now, freed)
    ensures now.Keys <= before.Keys
  {
    hide StaleTag, Freed, TagsOf;
    assert DeletedPlans(before, current, undeletable) * before.Keys == DeletedPlans(before, current, undeletable);
    DistinctSetSize(deletions);
  }

  lemma NoPlansNoSidecars(files: Files, current: string, undeletable: set<string>)
    ensures DeletedPlans(files, current, undeletable) == {} ==> AfterGc(files, current, undeletable) == files
  {
    hide StaleTag, PlanOf;
  }

  /** A plan is no sidecar, so what the second pass finds is what the first directory held. */
  lemma PlansAreNotSidecars(name: string)
    ensures HasSuffix(name, ENGINE) ==> PlanOf(name).None?
  {
    if HasSuffix(name, ENGINE) {
      SuffixChar(name, ENGINE);
      if HasSuffix(name, PROFILE) {
        SuffixChar(name, PROFILE);
      } else if HasSuffix(name, TIMING) {
        SuffixChar(name, TIMING);
      }
    }
  }

  /** The last character but one of a name is that of its suffix. */
  lemma SuffixChar(name: string, suffix: string)
    requires HasSuffix(name, suffix) && |suffix| >= 2
    ensures name[|name| - 2] == suffix[|suffix| - 2]
  {
    assert name[|name| - |suffix|..][|suffix| - 2] == suffix[|suffix| - 2];
  }

  lemma SidecarsAllGone(before: Files, mid: Files, now: Files, current: string, undeletable: set<string>,
                        stats: GcStats, freed: nat)
    requires mid == before - DeletedPlans(before, current, undeletable)
    requires SidecarsGone(before, mid, now, mid.Keys, DeletedPlans(before, current, undeletable), undeletable, stats, freed)
    ensures now == AfterGc(before, current, undeletable)
    ensures stats.bytesFreed == Saturate(freed) && Freed(before, now, freed)
  {
    hide Freed;
    var plans := DeletedPlans(before, current, undeletable);
    forall f | f in plans ensures PlanOf(f).None? {
      PlansAreNotSidecars(f);
    }
    hide PlanOf, StaleTag, DeletedPlans;
    assert SidecarsOf(mid, plans, undeletable) * mid.Keys == DeletedSidecars(before, current, undeletable);
  }

  // ---- What the sweep leaves alone, and what a second sweep finds ----

  /** The plans the enumerator counts for a GPU. */
  ghost function EnginesForSm(files: Files, sm: string): set<string> {
    set f | f in files && MatchesSmSuffix(f, sm)
  }

  lemma NotStaleIffCurrent(name: string, sm: string)
    requires WellFormedTag(sm) && MatchesSmSuffix(name, sm)
    ensures StaleTag(name, sm).None?
  {
    EndsInEngine(name, sm);
    ExtractAgreesWithEnumerator(name[..|name| - |ENGINE|], sm);
  }

  /** The sweep keeps every plan the enumerator counts for the current GPU, the sidecars of every
      plan that stays, and every file without a tag; it touches nothing else either. */
  lemma SweepKeeps(files: Files, sm: string, undeletable: set<string>, name: string)
    requires WellFormedTag(sm) && name in files
    ensures MatchesSmSuffix(name, sm) ==> name in AfterGc(files, sm, undeletable)
    ensures PlanOf(name).Some? && MatchesSmSuffix(PlanOf(name).value, sm) ==> name in AfterGc(files, sm, undeletable)
    ensures StaleTag(name, sm).None? && PlanOf(name).None? ==> name in AfterGc(files, sm, undeletable)
    ensures name in AfterGc(files, sm, undeletable) ==> AfterGc(files, sm, undeletable)[name] == files[name]
  {
    if MatchesSmSuffix(name, sm) {
      NotStaleIffCurrent(name, sm);
      EndsInEngine(name, sm);
      PlansAreNotSidecars(name);
    }
    if PlanOf(name).Some? {
      PlansAreNotSidecars(name);
      if MatchesSmSuffix(PlanOf(name).value, sm) {
        NotStaleIffCurrent(PlanOf(name).value, sm);
      }
    }
    hide PlanOf, StaleTag, MatchesSmSuffix;
    SidecarIsNoPlan(name, sm);
  }

  lemma SidecarIsNoPlan(name: string, sm: string)
    ensures PlanOf(name).Some? ==> StaleTag(name, sm).None?
  {
    PlansAreNotSidecars(name);
  }

  lemma CountUnchanged(files: Files, sm: string, undeletable: set<string>)
    requires WellFormedTag(sm)
    ensures EnginesForSm(AfterGc(files, sm, undeletable), sm) == EnginesForSm(files, sm)
  {
    forall f | f in EnginesForSm(files, sm) ensures f in EnginesForSm(AfterGc(files, sm, undeletable), sm) {
      SweepKeeps(files, sm, undeletable, f);
    }
  }

  /** When deletions succeed no stale plan survives. */
  lemma NoStalePlanSurvives(files: Files, sm: string, name: string)
    requires name in AfterGc(files, sm, {})
    ensures StaleTag(name, sm).None?
  {
    hide StaleTag, PlanOf;
  }

  /** A second sweep deletes nothing: not when every deletion succeeded, and not when some files
      refuse to go, since it then finds no plan it can delete. */
  lemma SecondSweepIsNoOp(files: Files, sm: string, undeletable: set<string>)
    ensures DeletedPlans(AfterGc(files, sm, undeletable), sm, undeletable) == {}
    ensures AfterGc(AfterGc(files, sm, undeletable), sm, undeletable) == AfterGc(files, sm, undeletable)
  {
    hide StaleTag, PlanOf;
    var once := AfterGc(files, sm, undeletable);
    assert DeletedPlans(once, sm, undeletable) == {};
    NoPlansNoSidecars(once, sm, undeletable);
  }

  /** A sidecar that could not be deleted when its plan was is orphaned for good: once the plan is
      gone no later sweep touches it, even when it has become deletable. */
  lemma OrphanedSidecarStays(files: Files, sm: string, locked: set<string>, unlocked: set<string>, sidecar: string)
    requires PlanOf(sidecar).Some? && PlanOf(sidecar).value in DeletedPlans(files, sm, locked)
    requires sidecar in files && sidecar in locked
    ensures sidecar in AfterGc(AfterGc(files, sm, locked), sm, unlocked)
  {
    SidecarIsNoPlan(sidecar, sm);
    hide StaleTag, PlanOf;
  }

  /** The tags observed, each once, are those of the deleted plans. */
  ghost predicate TagsOf(tags: seq<string>, plans: set<string>, current: string) {
    && Distinct(tags)
    && (forall t :: t in tags <==> exists f :: f in plans && StaleTag(f, current) == Some(t))
  }

  lemma TagsGrow(tags: seq<string>, plans: set<string>, current: string, name: string)
    requires TagsOf(tags, plans, current) && StaleTag(name, current).Some?
    ensures var t := StaleTag(name, current).value;
      TagsOf(if t in tags then tags else tags + [t], plans + {name}, current)
  {
    var t := StaleTag(name, current).value;
    var tags' := if t in tags then tags else tags + [t];
    hide StaleTag;
    forall u ensures u in tags' <==> exists f :: f in plans + {name} && StaleTag(f, current) == Some(u) {
      if u == t {
        assert name in plans + {name};
      } else if u in tags {
        var f :| f in plans && StaleTag(f, current) == Some(u);
        assert f in plans + {name};
      }
    }
  }

  lemma NextName(names: seq<string>, i: nat)
    requires i < |names| && Distinct(names)
    ensures ToSet(names[..i + 1]) == ToSet(names[..i]) + {names[i]} && names[i] !in ToSet(names[..i])
    ensures names[i] in ToSet(names)
  {}

  lemma Appended(xs: seq<string>, x: string)
    ensures ToSet(xs + [x]) == ToSet(xs) + {x}
    ensures Distinct(xs) && x !in ToSet(xs) ==> Distinct(xs + [x])
  {
    assert forall i :: 0 <= i < |xs| ==> xs[i] in ToSet(xs);
  }
}
