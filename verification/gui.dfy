/**
 * The journal screen and its mob list.  The list shows the registered types that look like
 * mobs, sorted by display name and narrowed by the search text.  Clicking an entry does not
 * scan at once: the screen remembers the type and the time, and the first frame drawn at
 * least 300 ms after the last selection scans the type.  A later selection replaces an
 * earlier one that has not fired yet.
 */
module Gui {
  import opened Wrappers
  import opened World
  import Text
  import Classes
  import opened ScopedInfo
  import opened Database
  import opened RequestScan
  import opened TraitManager
  import opened GoalParserRegistry
  import opened EntityAnalyzer
  import EthologyScanner

  // ---- which types the list shows, and in which order ---------------------------------------

  /** `isLikelyMob`: summonable, not MISC, with default attributes, neither an armor stand nor a giant. */
  predicate IsLikelyMob(t: EntityType) {
    if !t.canSummon then false
    else if t.category == MISC then false
    else if !t.hasDefaultAttributes then false
    else if t.key == ARMOR_STAND_KEY then false
    else if t.key == GIANT_KEY then false
    else true
  }

  /** The registry's likely mobs, in registry order. */
  function Likely(types: seq<EntityType>): (r: seq<EntityType>)
    ensures forall t :: t in r <==> t in types && IsLikelyMob(t)
  {
    if types == [] then []
    else
      var init, last := types[..|types| - 1], types[|types| - 1];
      assert types == init + [last];
      if IsLikelyMob(last) then Likely(init) + [last] else Likely(init)
  }

  predicate SortedByDescription(s: seq<EntityType>) {
    forall i, j | 0 <= i < j < |s| :: Text.LexLessEq(s[i].description, s[j].description)
  }

  /** Places `t` after every element whose description does not come after its own. */
  function Insert(s: seq<EntityType>, t: EntityType): (r: seq<EntityType>)
    ensures multiset(r) == multiset(s) + multiset{t}
  {
    if s == [] then [t]
    else
      var init, last := s[..|s| - 1], s[|s| - 1];
      assert s == init + [last];
      if Text.LexLessEq(last.description, t.description) then s + [t]
      else Insert(init, t) + [last]
  }

  /** The stream's `sorted` by display name, as an insertion sort. */
  function SortByDescription(s: seq<EntityType>): (r: seq<EntityType>)
    ensures multiset(r) == multiset(s)
  {
    if s == [] then []
    else
      assert s == s[..|s| - 1] + [s[|s| - 1]];
      Insert(SortByDescription(s[..|s| - 1]), s[|s| - 1])
  }

  lemma {:induction false} InsertSorted(s: seq<EntityType>, t: EntityType)
    requires SortedByDescription(s)
    ensures SortedByDescription(Insert(s, t))
  {
    if s != [] {
      var init, last := s[..|s| - 1], s[|s| - 1];
      if Text.LexLessEq(last.description, t.description) {
        forall i | 0 <= i < |s| ensures Text.LexLessEq(s[i].description, t.description) {
          if i < |s| - 1 {
            Text.LexTransitive(s[i].description, last.description, t.description);
          }
        }
      } else {
        assert SortedByDescription(init);
        InsertSorted(init, t);
        var front := Insert(init, t);
        Text.LexTotal(last.description, t.description);
        forall i | 0 <= i < |front| ensures Text.LexLessEq(front[i].description, last.description) {
          assert front[i] in multiset(front);
          if front[i] != t {
            assert front[i] in multiset(init);
            var k :| 0 <= k < |init| && init[k] == front[i];
          }
        }
      }
    }
  }

  lemma {:induction false} SortSorted(s: seq<EntityType>)
    ensures SortedByDescription(SortByDescription(s))
  {
    if s != [] {
      SortSorted(s[..|s| - 1]);
      InsertSorted(SortByDescription(s[..|s| - 1]), s[|s| - 1]);
    }
  }

  /** The entries of `s` whose lower-cased name contains `lowerFilter`, in order. */
  function Keep(s: seq<EntityType>, lowerFilter: string): (r: seq<EntityType>)
    ensures forall t :: t in r <==> t in s && Text.Contains(Text.ToLower(t.description), lowerFilter)
  {
    if s == [] then []
    else
      var init, last := s[..|s| - 1], s[|s| - 1];
      assert s == init + [last];
      if Text.Contains(Text.ToLower(last.description), lowerFilter) then Keep(init, lowerFilter) + [last]
      else Keep(init, lowerFilter)
  }

  lemma {:induction false} KeepSorted(s: seq<EntityType>, lowerFilter: string)
    requires SortedByDescription(s)
    ensures SortedByDescription(Keep(s, lowerFilter))
  {
    if s != [] {
      var init, last := s[..|s| - 1], s[|s| - 1];
      assert SortedByDescription(init);
      KeepSorted(init, lowerFilter);
      var kept := Keep(init, lowerFilter);
      forall i | 0 <= i < |kept| ensures Text.LexLessEq(kept[i].description, last.description) {
        assert kept[i] in init;
        var k :| 0 <= k < |init| && init[k] == kept[i];
      }
    }
  }

  /** Every entry passes when the filter is empty. */
  lemma {:induction false} KeepEmptyFilter(s: seq<EntityType>)
    ensures Keep(s, "") == s
  {
    if s != [] {
      KeepEmptyFilter(s[..|s| - 1]);
      Text.EmptyIsContained(Text.ToLower(s[|s| - 1].description));
      assert s == s[..|s| - 1] + [s[|s| - 1]];
    }
  }

  /** One step of `refreshList`'s loop: the next entry is kept exactly when its name matches. */
  lemma KeepStep(s: seq<EntityType>, i: nat, lowerFilter: string)
    requires i < |s|
    ensures Keep(s[..i + 1], lowerFilter) ==
              Keep(s[..i], lowerFilter) + (if Text.Contains(Text.ToLower(s[i].description), lowerFilter) then [s[i]] else [])
  {
    assert s[..i + 1][..i] == s[..i];
  }

  /** What `refreshList(filter)` leaves in the list. */
  function ListEntries(types: seq<EntityType>, filter: string): seq<EntityType> {
    Keep(SortByDescription(Likely(types)), Text.ToLower(filter))
  }

  /**
   * The list holds exactly the likely mobs whose lower-cased name contains the lower-cased
   * filter, sorted by name; with an empty filter it is a permutation of all likely mobs.
   */
  lemma ListEntriesSpec(types: seq<EntityType>, filter: string)
    ensures forall t :: t in ListEntries(types, filter) <==>
              t in types && IsLikelyMob(t) && Text.Contains(Text.ToLower(t.description), Text.ToLower(filter))
      ensures SortedByDescription(ListEntries(types, filter))
    ensures filter == "" ==> multiset(ListEntries(types, filter)) == multiset(Likely(types))
  {
    var sorted := SortByDescription(Likely(types));
    forall t ensures t in sorted <==> t in Likely(types) {
      assert t in sorted <==> t in multiset(sorted);
    }
    SortSorted(Likely(types));
    KeepSorted(sorted, Text.ToLower(filter));
    if filter == "" {
      KeepEmptyFilter(sorted);
    }
  }

  /** The first index holding `t`, as the `for ... break` of `setSelectedByType` finds it. */
  function FirstIndex(s: seq<EntityType>, t: EntityType): (r: Option<nat>)
    ensures r.None? <==> t !in s
    ensures r.Some? ==> r.value < |s| && s[r.value] == t && t !in s[..r.value]
  {
    if s == [] then None
    else if s[0] == t then Some(0)
    else match FirstIndex(s[1..], t)
      case None => None
      case Some(k) => assert s[1..][..k] == s[1..k + 1]; Some(k + 1)
  }

  // ---- the debounce, as values --------------------------------------------------------------

  const DEBOUNCE_DELAY_MS: int := 300

  /** The screen's debounce fields. */
  datatype Debounce = Debounce(pending: Option<EntityType>, lastSelectionTime: int, suppress: bool)

  /** `onMobSelected` at time `now`: ignored while suppressed, else the type and time are replaced. */
  function Select(d: Debounce, t: EntityType, now: int): (r: Debounce)
    ensures r.suppress == d.suppress
    ensures d.suppress ==> r == d
    ensures !d.suppress ==> r.pending == Some(t) && r.lastSelectionTime == now
  {
    if d.suppress then d else d.(pending := Some(t), lastSelectionTime := now)
  }

  /** One frame at time `now`: the state afterwards and the type scanned, if any. */
  function Tick(d: Debounce, now: int): (r: (Debounce, Option<EntityType>))
    ensures r.1.Some? <==> d.pending.Some? && now - d.lastSelectionTime >= DEBOUNCE_DELAY_MS
    ensures r.1.Some? ==> r.1 == d.pending && r.0 == d.(pending := None)
    ensures r.1.None? ==> r.0 == d
  {
    if d.pending.Some? && now - d.lastSelectionTime >= DEBOUNCE_DELAY_MS then (d.(pending := None), d.pending)
    else (d, None)
  }

  /** What happens on the screen: a click on an entry, or a frame. */
  datatype UiEvent = Selected(etype: EntityType, time: int) | Frame(time: int)

  /** The debounce state after `events`, and the scans they fired, in order. */
  function Replay(d: Debounce, events: seq<UiEvent>): (Debounce, seq<EntityType>) {
    if events == [] then (d, [])
    else
      var (before, fired) := Replay(d, events[..|events| - 1]);
      match events[|events| - 1]
      case Selected(t, time) => (Select(before, t, time), fired)
      case Frame(time) =>
        var (after, scan) := Tick(before, time);
        (after, if scan.Some? then fired + [scan.value] else fired)
  }

  lemma {:induction false} ReplayAppend(d: Debounce, a: seq<UiEvent>, b: seq<UiEvent>)
    ensures Replay(d, a + b).0 == Replay(Replay(d, a).0, b).0
    ensures Replay(d, a + b).1 == Replay(d, a).1 + Replay(Replay(d, a).0, b).1
  {
    if b == [] {
      assert a + b == a;
    } else {
      assert (a + b)[..|a + b| - 1] == a + b[..|b| - 1];
      assert (a + b)[|a + b| - 1] == b[|b| - 1];
      ReplayAppend(d, a, b[..|b| - 1]);
    }
  }

  predicate AllFrames(events: seq<UiEvent>) {
    forall i | 0 <= i < |events| :: events[i].Frame?
  }

  /** Frames before the delay has passed since the last selection change nothing and fire nothing. */
  lemma {:induction false} EarlyFramesAreQuiet(d: Debounce, frames: seq<UiEvent>)
    requires AllFrames(frames)
    requires forall i | 0 <= i < |frames| :: frames[i].time - d.lastSelectionTime < DEBOUNCE_DELAY_MS
    ensures Replay(d, frames) == (d, [])
  {
    if frames != [] {
      EarlyFramesAreQuiet(d, frames[..|frames| - 1]);
    }
  }

  /**
   * After a selection of `t` at `t0`, any frames fire exactly one scan, for `t`, when one
   * of them comes at least 300 ms later, and none otherwise.
   */
  lemma {:induction false} PendingFiresOnce(d: Debounce, t: EntityType, t0: int, frames: seq<UiEvent>)
    requires d.pending == Some(t) && d.lastSelectionTime == t0 && AllFrames(frames)
    ensures Replay(d, frames).1 ==
              if exists i | 0 <= i < |frames| :: frames[i].time - t0 >= DEBOUNCE_DELAY_MS then [t] else []
      ensures Replay(d, frames).0.lastSelectionTime == t0 && Replay(d, frames).0.suppress == d.suppress
  {
    if frames != [] {
      var init := frames[..|frames| - 1];
      PendingFiresOnce(d, t, t0, init);
      var before := Replay(d, init).0;
      var lastTime := frames[|frames| - 1].time;
      if exists i | 0 <= i < |init| :: init[i].time - t0 >= DEBOUNCE_DELAY_MS {
        var i :| 0 <= i < |init| && init[i].time - t0 >= DEBOUNCE_DELAY_MS;
        assert frames[i] == init[i];
        PendingClearedAfterFiring(d, t, t0, init);
      } else {
        assert before == d by {
          EarlyFramesAreQuiet(d, init);
        }
        if lastTime - t0 >= DEBOUNCE_DELAY_MS {
          assert frames[|frames| - 1].time - t0 >= DEBOUNCE_DELAY_MS;
        } else {
          forall i | 0 <= i < |frames| ensures frames[i].time - t0 < DEBOUNCE_DELAY_MS {
            if i < |init| { assert frames[i] == init[i]; }
          }
        }
      }
    }
  }

  /** Once the pending selection has fired, nothing is pending any more. */
  lemma {:induction false} PendingClearedAfterFiring(d: Debounce, t: EntityType, t0: int, frames: seq<UiEvent>)
    requires d.pending == Some(t) && d.lastSelectionTime == t0 && AllFrames(frames)
    requires exists i | 0 <= i < |frames| :: frames[i].time - t0 >= DEBOUNCE_DELAY_MS
    ensures Replay(d, frames).0.pending.None?
  {
    var init := frames[..|frames| - 1];
    if exists i | 0 <= i < |init| :: init[i].time - t0 >= DEBOUNCE_DELAY_MS {
      PendingClearedAfterFiring(d, t, t0, init);
      PendingFiresOnce(d, t, t0, init);
    } else {
      EarlyFramesAreQuiet(d, init);
      forall j | 0 <= j < |init| ensures frames[j].time - t0 < DEBOUNCE_DELAY_MS {
        assert frames[j] == init[j];
      }
      var i :| 0 <= i < |frames| && frames[i].time - t0 >= DEBOUNCE_DELAY_MS;
      assert i == |frames| - 1;
    }
  }

  /**
   * Selecting `a` and then `b` less than 300 ms later, with frames drawn in between and
   * after, scans `b` once (when a frame comes 300 ms after the second selection) and never
   * scans `a`.
   */
  lemma SupersededSelection(d: Debounce, a: EntityType, b: EntityType, t1: int, t2: int,
                            between: seq<UiEvent>, after: seq<UiEvent>)
    requires !d.suppress && t1 <= t2 < t1 + DEBOUNCE_DELAY_MS
    requires AllFrames(between) && forall i | 0 <= i < |between| :: between[i].time <= t2
    requires AllFrames(after)
    ensures Replay(d, [Selected(a, t1)] + between + [Selected(b, t2)] + after).1 ==
              if exists i | 0 <= i < |after| :: after[i].time - t2 >= DEBOUNCE_DELAY_MS then [b] else []
  {
    var first := Replay(d, [Selected(a, t1)]).0;
    assert Replay(d, [Selected(a, t1)]) == (Select(d, a, t1), []);
    EarlyFramesAreQuiet(first, between);
    ReplayAppend(d, [Selected(a, t1)], between);
    ReplayAppend(d, [Selected(a, t1)] + between, [Selected(b, t2)]);
    var second := Select(first, b, t2);
    assert Replay(first, [Selected(b, t2)]) == (second, []);
    ReplayAppend(d, [Selected(a, t1)] + between + [Selected(b, t2)], after);
    PendingFiresOnce(second, b, t2, after);
  }

  // ---- the screen and the list as objects ----------------------------------------------------

  /** What a scan needs: the analysis inputs, the client's database, the level and the connection. */
  datatype ScanEnv = ScanEnv(h: Classes.Hierarchy, manager: EthologyTraitManager, registry: GoalParserRegistry,
                             debug: bool, db: EthologyDatabase, levelPresent: bool, connected: bool)
  {
    ghost predicate Valid()
      reads db
    {
      h.Valid() && db.Valid()
    }
  }

  /**
   * The preview entity after a scan of `t`: the cached one when it already has type `t`;
   * otherwise, with a level, the newly created entity if it is living, else none.
   */
  function PreviewAfter(cached: Option<LivingEntity>, t: EntityType, levelPresent: bool, created: Created): Option<LivingEntity> {
    if cached.Some? && cached.value.etype == t then cached
    else if !levelPresent then cached
    else if created.Living? then Some(created.entity)
    else None
  }

  /**
   * With a level, the preview after a scan is of the scanned type or absent, and a preview
   * of that type is never recreated.
   */
  lemma PreviewMatchesScan(cached: Option<LivingEntity>, t: EntityType, levelPresent: bool, created: Created)
    requires created.Living? ==> created.entity.etype == t
    ensures levelPresent ==> PreviewAfter(cached, t, levelPresent, created).None? ||
                             PreviewAfter(cached, t, levelPresent, created).value.etype == t
      ensures cached.Some? && cached.value.etype == t ==> PreviewAfter(cached, t, levelPresent, created) == cached
    ensures levelPresent && (cached.None? || cached.value.etype != t) ==>
              PreviewAfter(cached, t, levelPresent, created) == (if created.Living? then Some(created.entity) else None)
  {
  }

  class EthologyScreen {
    var listWidget: MobListWidget?
    var cachedEntity: Option<LivingEntity>
    /** What the info panel was last given. */
    var shownInfo: Option<MobScopedInfo>
    var pendingScanType: Option<EntityType>
    var lastSelectionTime: int
    var suppressSelectionEvent: bool

    function Snapshot(): Debounce
      reads this
    {
      Debounce(pendingScanType, lastSelectionTime, suppressSelectionEvent)
    }

    constructor()
      ensures listWidget == null && cachedEntity.None? && shownInfo.None?
      ensures Snapshot() == Debounce(None, 0, false)
    {
      listWidget := null;
      cachedEntity := None;
      shownInfo := None;
      pendingScanType := None;
      lastSelectionTime := 0;
      suppressSelectionEvent := false;
    }

    /** `onMobSelected`, with the clock reading as a parameter. */
    method OnMobSelected(t: EntityType, now: int)
      modifies this`pendingScanType, this`lastSelectionTime
      ensures Snapshot() == Select(old(Snapshot()), t, now)
    {
      if suppressSelectionEvent {
        return;
      }
      pendingScanType := Some(t);
      lastSelectionTime := now;
    }

    /**
     * `executeScan`: an archetype scan of `t`, then the preview entity and the info panel.
     * `scanCreated` is what the scan's own creation of an entity of type `t` yields and
     * `previewCreated` what the screen's creation yields.
     */
    method ExecuteScan(env: ScanEnv, t: EntityType, scanCreated: Created, previewCreated: Created, now: int)
      returns (request: Option<RequestScanPayload>)
      requires env.Valid()
      modifies env.db`database, env.db`instanceCache, env.db`cacheTimestamps, this`cachedEntity, this`shownInfo
      ensures env.db.Valid()
      ensures request == if env.levelPresent && env.connected then Some(RequestScanPayload(t.key, None)) else None
      ensures cachedEntity == PreviewAfter(old(cachedEntity), t, env.levelPresent, previewCreated)
      ensures shownInfo == env.db.Get(t)
      ensures var analysis := ArchetypeAnalysis(AnalysisEnvOf(env.h, env.manager, env.registry, env.debug), t, scanCreated).0;
              env.levelPresent && analysis.Some? ==> shownInfo.Some? && shownInfo.value.Snapshot() == analysis.value
      ensures EthologyScanner.ArchetypeScanDone(AnalysisEnvOf(env.h, env.manager, env.registry, env.debug), t, scanCreated,
                                                env.levelPresent, now, env.db, old(EthologyScanner.Maps(env.db)))
    {
      request := EthologyScanner.ScanEntity(env.h, env.manager, env.registry, env.debug, env.db, t, scanCreated,
                                            env.levelPresent, env.connected, now);
      var info := env.db.Get(t);
      UpdatePreview(t, env.levelPresent, previewCreated);
      shownInfo := info;
    }

    /** The preview step of `executeScan`: an entity is created only when none of type `t` is cached. */
    method UpdatePreview(t: EntityType, levelPresent: bool, created: Created)
      modifies this`cachedEntity
      ensures cachedEntity == PreviewAfter(old(cachedEntity), t, levelPresent, created)
    {
      if cachedEntity.None? || cachedEntity.value.etype != t {
        if levelPresent {
          if created.Living? {
            cachedEntity := Some(created.entity);
          } else {
            cachedEntity := None;
          }
        }
      }
    }

    /** `render`'s debounce step: scans the pending type once 300 ms have passed since it was selected. */
    method Render(env: ScanEnv, scanCreated: Created, previewCreated: Created, now: int)
      returns (fired: Option<EntityType>, request: Option<RequestScanPayload>)
      requires env.Valid()
      modifies env.db`database, env.db`instanceCache, env.db`cacheTimestamps, this`cachedEntity, this`shownInfo,
               this`pendingScanType
      ensures env.db.Valid()
      ensures (Snapshot(), fired) == Tick(old(Snapshot()), now)
      ensures fired.None? ==>
                request.None? && cachedEntity == old(cachedEntity) && shownInfo == old(shownInfo) && unchanged(env.db)
      ensures fired.Some? ==>
                request == (if env.levelPresent && env.connected then Some(RequestScanPayload(fired.value.key, None)) else None) &&
                cachedEntity == PreviewAfter(old(cachedEntity), fired.value, env.levelPresent, previewCreated) &&
                shownInfo == env.db.Get(fired.value)
      ensures fired.Some? ==>
                var a := AnalysisEnvOf(env.h, env.manager, env.registry, env.debug);
                var analysis := ArchetypeAnalysis(a, fired.value, scanCreated).0;
                (env.levelPresent && analysis.Some? ==> shownInfo.Some? && shownInfo.value.Snapshot() == analysis.value) &&
                EthologyScanner.ArchetypeScanDone(a, fired.value, scanCreated, env.levelPresent, now, env.db,
                                                  old(EthologyScanner.Maps(env.db)))
    {
      fired, request := None, None;
      if pendingScanType.Some? {
        if now - lastSelectionTime >= DEBOUNCE_DELAY_MS {
          fired := pendingScanType;
          request := ExecuteScan(env, pendingScanType.value, scanCreated, previewCreated, now);
          pendingScanType := None;
        }
      }
    }

    /** The search box's responder: refilters the list. */
    method OnSearchChanged(types: seq<EntityType>, text: string)
      requires listWidget != null
      modifies listWidget`entries, listWidget`selected
      ensures listWidget.entries == ListEntries(types, text) && listWidget.selected.None?
    {
      listWidget.RefreshList(types, text);
    }

    /**
     * `init`'s state changes: a new list over the registry; when the crosshair is on a living
     * entity, a targeted scan, that entity as the preview, its type's info on the panel and
     * its type selected in the list, with selection events suppressed so no scan is scheduled.
     */
    method Init(env: ScanEnv, types: seq<EntityType>, crosshair: Option<LivingEntity>, now: int)
      returns (request: Option<RequestScanPayload>)
      requires env.Valid() && !suppressSelectionEvent
      modifies this, env.db`database, env.db`instanceCache, env.db`cacheTimestamps
      ensures env.db.Valid()
      ensures listWidget != null && fresh(listWidget) && listWidget.parent == this
      ensures listWidget.entries == ListEntries(types, "")
      ensures Snapshot() == old(Snapshot())
      ensures crosshair.None? ==>
                request.None? && listWidget.selected.None? && unchanged(env.db) &&
                cachedEntity == old(cachedEntity) && shownInfo == old(shownInfo)
      ensures crosshair.Some? ==>
                cachedEntity == crosshair && shownInfo == env.db.Get(crosshair.value.etype) &&
                listWidget.selected == FirstIndex(listWidget.entries, crosshair.value.etype) &&
                (!env.connected ==> request.None? && unchanged(env.db))
      ensures crosshair.Some? && env.connected ==>
                EthologyScanner.TargetedScanDone(AnalysisEnvOf(env.h, env.manager, env.registry, env.debug), crosshair.value,
                                                 old(EthologyScanner.FreshSnapshot(env.db, crosshair.value.uuid, now)),
                                                 now, env.db, old(EthologyScanner.Maps(env.db)), request)
    {
      ghost var before := EthologyScanner.Maps(env.db);
      ghost var cached := if crosshair.Some? then EthologyScanner.FreshSnapshot(env.db, crosshair.value.uuid, now) else None;
      var list := new MobListWidget(types, this);
      listWidget := list;
      assert EthologyScanner.Maps(env.db) == before;
      assert crosshair.Some? ==> EthologyScanner.FreshSnapshot(env.db, crosshair.value.uuid, now) == cached;
      request := ShowCrosshair(env, list, crosshair, now);
    }

    /**
     * The crosshair half of `init`: with a living target, a targeted scan of it, which becomes
     * the preview, its type's info goes to the panel and its type is selected with events
     * suppressed; without one, nothing happens.
     */
    method ShowCrosshair(env: ScanEnv, list: MobListWidget, crosshair: Option<LivingEntity>, now: int)
      returns (request: Option<RequestScanPayload>)
      requires env.Valid() && list.selected.None? && !suppressSelectionEvent
      modifies this`cachedEntity, this`shownInfo, this`suppressSelectionEvent, list`selected
      modifies env.db`database, env.db`instanceCache, env.db`cacheTimestamps
      ensures env.db.Valid() && !suppressSelectionEvent
      ensures crosshair.None? ==>
                request.None? && list.selected.None? && unchanged(env.db) &&
                cachedEntity == old(cachedEntity) && shownInfo == old(shownInfo)
      ensures crosshair.Some? ==>
                cachedEntity == crosshair && shownInfo == env.db.Get(crosshair.value.etype) &&
                list.selected == FirstIndex(list.entries, crosshair.value.etype) &&
                (!env.connected ==> request.None? && unchanged(env.db))
      ensures crosshair.Some? && env.connected ==>
                EthologyScanner.TargetedScanDone(AnalysisEnvOf(env.h, env.manager, env.registry, env.debug), crosshair.value,
                                                 old(EthologyScanner.FreshSnapshot(env.db, crosshair.value.uuid, now)),
                                                 now, env.db, old(EthologyScanner.Maps(env.db)), request)
    {
      if crosshair.None? {
        return None;
      }
      var living := crosshair.value;
      request := EthologyScanner.ScanTargetedEntity(env.h, env.manager, env.registry, env.debug, env.db,
                                                    living, env.connected, now);
      cachedEntity := crosshair;
      shownInfo := env.db.Get(living.etype);
      suppressSelectionEvent := true;
      list.SetSelectedByType(living.etype);
      suppressSelectionEvent := false;
    }
  }

  class MobListWidget {
    var entries: seq<EntityType>
    /** The index of the selected entry. */
    var selected: Option<nat>
    const parent: EthologyScreen

    predicate Valid()
      reads this
    {
      selected.Some? ==> selected.value < |entries|
    }

    /** The constructor fills the list with an empty filter. */
    constructor(types: seq<EntityType>, parent: EthologyScreen)
      ensures this.parent == parent && entries == ListEntries(types, "") && selected.None?
    {
      this.parent := parent;
      entries := [];
      selected := None;
      new;
      RefreshList(types, "");
    }

    /**
     * `refreshList`: clears the list (and with it the selection), then adds, in name order,
     * each likely mob whose lower-cased name contains the lower-cased filter.
     */
    method RefreshList(types: seq<EntityType>, filter: string)
      modifies this`entries, this`selected
      ensures entries == ListEntries(types, filter) && selected.None?
    {
      entries := [];
      selected := None;
      var lowerFilter := Text.ToLower(filter);
      var sorted := SortByDescription(Likely(types));
      for i := 0 to |sorted|
        invariant entries == Keep(sorted[..i], lowerFilter) && selected.None?
      {
        KeepStep(sorted, i, lowerFilter);
        if Text.Contains(Text.ToLower(sorted[i].description), lowerFilter) {
          entries := entries + [sorted[i]];
        }
      }
      assert sorted[..|sorted|] == sorted;
    }

    /** `setSelectedByType`: selects the first entry of type `t`; without one the selection stays. */
    method SetSelectedByType(t: EntityType)
      modifies this`selected
      ensures FirstIndex(entries, t).Some? ==> selected == FirstIndex(entries, t)
      ensures FirstIndex(entries, t).None? ==> selected == old(selected)
    {
      var i := 0;
      while i < |entries|
        invariant 0 <= i <= |entries| && t !in entries[..i] && selected == old(selected)
      {
        if entries[i] == t {
          selected := Some(i);
          assert FirstIndex(entries, t) == Some(i);
          break;
        }
        assert entries[..i + 1] == entries[..i] + [entries[i]];
        i := i + 1;
      }
    }

    /** A click on entry `i`: selects it and tells the screen its type was chosen. */
    method Click(i: nat, now: int) returns (handled: bool)
      requires i < |entries|
      modifies this`selected, parent`pendingScanType, parent`lastSelectionTime
      ensures selected == Some(i) && handled
      ensures parent.Snapshot() == Select(old(parent.Snapshot()), entries[i], now)
    {
      selected := Some(i);
      parent.OnMobSelected(entries[i], now);
      handled := true;
    }
  }
}
