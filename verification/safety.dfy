/** What holds of the workers' own data over whole runs of all handlers, and what a cleanup must not do. */
module Safety {
  import opened Api
  import opened Config
  import opened HandlerProgram
  import opened HandlerFacts
  import opened Lifecycle

  function HostOf(c: Config, slot: Slot): Host
    requires slot.Working?
  {
    Handles(c, slot.task)
  }

  // ---- the workers' own data ----

  ghost predicate CameFrom(h: History, k: SvcKey, uid: string) {
    exists n :: HasUid(h, k, n, uid)
  }

  ghost predicate SlotOk(c: Config, h: History, slot: Slot) {
    slot.Working? ==>
      Sound(HostOf(c, slot), slot.cached, slot.pc)
      && (slot.cached.Found? ==> CameFrom(h, slot.task.at, slot.cached.svc.uid))
  }

  ghost predicate DataInv(c: Config, w: World) {
    Inv(w) && forall x :: SlotOk(c, w.hist, SlotOf(w, x))
  }

  lemma LookedUpIsSound(c: Config, w: World, t: Task, broken: bool)
    requires Inv(w)
    ensures var cached := if broken then CacheError else CacheOf(w, t.at);
      SlotOk(c, w.hist, Working(t, cached, Start(Item(t.at.key, t.uid), cached)))
  {
    var cached := CacheOf(w, t.at);
    SoundStart(Handles(c, t), Item(t.at.key, t.uid), if broken then CacheError else cached);
    if cached.Found? {
      assert HasUid(w.hist, t.at, Seen(w, t.at), cached.svc.uid);
    }
  }

  lemma DataInvKept(c: Config, w: World, e: Event)
    requires DataInv(c, w) && Can(c, w, e)
    ensures DataInv(c, Do(c, w, e))
  {
    hide Inv, Sound, Next, Asks, Start, Enabled;
    var w' := Do(c, w, e);
    InvKept(c, w, e);
    forall x
      ensures SlotOk(c, w'.hist, SlotOf(w', x))
    {
      var slot := SlotOf(w, x);
      if e.Look? && e.worker == x {
        LookedUpIsSound(c, w, slot.task, e.broken);
      } else if e.Call? && e.worker == x {
        SoundStep(HostOf(c, slot), slot.cached, slot.pc, w.store, e.a);
      } else if e.HostChange? && slot.Working? && slot.cached.Found? {
        var n :| HasUid(w.hist, slot.task.at, n, slot.cached.svc.uid);
        UidsAfter(w.hist, e.at, e.version, slot.task.at, n, slot.cached.svc.uid);
      }
    }
  }

  lemma {:induction false} DataInvAlways(c: Config, w: World, run: seq<Event>, g: (World, Event) -> bool)
    requires Init(w) && Ran(c, w, run, g)
    ensures DataInv(c, End(c, w, run, g))
    decreases |run|
  {
    hide Inv, Can, Do;
    if run == [] {
      InitInv(w);
    } else {
      DataInvAlways(c, w, run[..|run| - 1], g);
      DataInvKept(c, End(c, w, run[..|run| - 1], g), run[|run| - 1]);
    }
  }

  // ---- deleting by name ----

  /** The worker has listed a provisioning cluster for a dead service and is about to delete it by name. */
  predicate AboutToDelete(slot: Slot, key: Key) {
    slot.Working? && slot.pc.CleanupDelete? && slot.pc.key == key
  }

  /** The event is a cleanup's delete that hits a cluster labelled with the UID of a live service. */
  ghost predicate HitsLive(w: World, e: Event) {
    e.Call? && e.a.Delete? && e.a.took && AboutToDelete(SlotOf(w, e.worker), e.a.key)
    && e.a.key in w.store && Live(w.hist, ServiceUidOf(w.store[e.a.key]))
  }
}
