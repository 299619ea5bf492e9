/** Every action preserves the invariant. */
module MembershipPreservation {
  import opened Base
  import opened Membership
  import opened MembershipInvariant

  // ---- Actions that take things away or leave both stores alone ----

  lemma FewerStep(w: World, v: World)
    requires Inv(w) && Fewer(w.api, v.api) && FewerEntries(w.etcd, v.etcd)
    requires KeptIds(w.api, v.api) || MemberIds(v.api.mem, v.etcd)
    requires v.cl.status == w.cl.status && v.etcd.auth == w.etcd.auth && v.cl.spec.auth == w.cl.spec.auth
    requires v.cw.ctl == Idle || (v.cw.ctl == w.cw.ctl && v.cw.snap == w.cw.snap)
    requires SnapInv(v.cl, v.now, v.cw) && ClusterRpcs(v.cw) && MemberRpcs(v.mw)
    requires Finalizers(v.api.mem, v.etcd, v.mw.ctl)
    ensures Inv(v)
  {
    FewerStores(w.api, v.api, w.etcd, v.etcd);
    FewerNewest(w.api, v.api, w.etcd, v.etcd);
    if v.cw.ctl != Idle {
      FewerCtl(w.cw.ctl, w.cw.snap, w.api, v.api, w.etcd, v.etcd);
    }
  }

  lemma EditSpecStep(w: World, spec: Spec)
    requires Inv(w) && spec.auth == w.cl.spec.auth
    ensures Inv(w.(cl := w.cl.(spec := spec, gen := w.cl.gen + 1)))
  {
    FewerStep(w, w.(cl := w.cl.(spec := spec, gen := w.cl.gen + 1)));
  }

  lemma DeleteRecordFewer(api: Records, etcd: Etcd, ctl: map<Name, MCtl>, n: Name)
    ensures Fewer(api, DeleteRecord(api, n)) && KeptIds(api, DeleteRecord(api, n))
    ensures Finalizers(api.mem, etcd, ctl) ==> Finalizers(DeleteRecord(api, n).mem, etcd, ctl)
  {
  }

  lemma ExtDeleteStep(w: World, n: Name)
    requires Inv(w)
    ensures Inv(w.(api := DeleteRecord(w.api, n)))
  {
    DeleteRecordFewer(w.api, w.etcd, w.mw.ctl, n);
    FewerStep(w, w.(api := DeleteRecord(w.api, n)));
  }

  lemma PodGoneStep(w: World, n: Name)
    requires Inv(w)
    ensures Inv(w.(api := w.api.(pods := w.api.pods - {n})))
  {
    FewerStep(w, w.(api := w.api.(pods := w.api.pods - {n})));
  }

  lemma BuildPodStep(w: World, n: Name, parentRead: bool)
    requires Inv(w)
    ensures Inv(BuildPod(w, n, parentRead))
  {
    FewerStep(w, BuildPod(w, n, parentRead));
  }

  lemma CreatePodStep(w: World, n: Name)
    requires Inv(w)
    ensures Inv(CreatePod(w, n))
  {
    FewerStep(w, CreatePod(w, n));
  }

  lemma MCrashStep(w: World, n: Name)
    requires Inv(w)
    ensures Inv(w.(mw := w.mw.(ctl := w.mw.ctl - {n})))
  {
    FewerStep(w, w.(mw := w.mw.(ctl := w.mw.ctl - {n})));
  }

  lemma FieldUpdateFewer(w: World, a: Action)
    requires a.MAddFinalizer? || a.MPodStatus? || a.MReady?
    requires Finalizers(w.api.mem, w.etcd, w.mw.ctl)
    ensures Fewer(w.api, MemberWrite(w, a).api) && KeptIds(w.api, MemberWrite(w, a).api)
    ensures Finalizers(MemberWrite(w, a).api.mem, w.etcd, w.mw.ctl)
  {
  }

  lemma FieldStep(w: World, a: Action)
    requires Inv(w) && (a.MAddFinalizer? || a.MPodStatus? || a.MReady?)
    ensures Inv(MemberWrite(w, a))
  {
    FieldUpdateFewer(w, a);
    FewerStep(w, MemberWrite(w, a));
  }

  // ---- Recording a discovered member id ----

  lemma DiscoverIdFewer(w: World, n: Name, i: Id)
    requires MemberIds(w.api.mem, w.etcd) && Entries(w.api.used, w.etcd) && Finalizers(w.api.mem, w.etcd, w.mw.ctl)
    ensures var v := MemberWrite(w, MDiscover(n, i));
            && Fewer(w.api, v.api) && MemberIds(v.api.mem, w.etcd) && Finalizers(v.api.mem, w.etcd, w.mw.ctl)
  {
    if i in w.etcd.list && w.etcd.list[i].owner == n {
      assert IdOf(w.etcd, n, i);
    }
  }

  lemma DiscoverIdStep(w: World, n: Name, i: Id)
    requires Inv(w)
    ensures Inv(MemberWrite(w, MDiscover(n, i)))
  {
    DiscoverIdFewer(w, n, i);
    FewerStep(w, MemberWrite(w, MDiscover(n, i)));
  }

  // ---- Finalizers ----

  lemma FinAtInv(w: World, n: Name, c: MCtl)
    requires MemberRpcs(w.mw) && Finalizers(w.api.mem, w.etcd, w.mw.ctl)
    requires n in w.api.mem && w.api.mem[n].deleting && w.api.mem[n].finalizer && !c.MBuilt?
    requires c.MRemove? ==> Harmless(w.etcd, n, c.id)
    ensures var v := FinAt(w, n, c); MemberRpcs(v.mw) && Finalizers(v.api.mem, v.etcd, v.mw.ctl)
  {
  }

  lemma FinAtStep(w: World, n: Name, c: MCtl)
    requires Inv(w)
    requires n in w.api.mem && w.api.mem[n].deleting && w.api.mem[n].finalizer && !c.MBuilt?
    requires c.MRemove? ==> Harmless(w.etcd, n, c.id)
    ensures Inv(FinAt(w, n, c))
  {
    FinAtInv(w, n, c);
    FewerStep(w, FinAt(w, n, c));
  }

  lemma FinStartStep(w: World, n: Name)
    requires Inv(w)
    ensures Inv(FinStart(w, n))
  {
    if n !in w.api.mem || !w.api.mem[n].deleting || !w.api.mem[n].finalizer || n in w.mw.ctl {
    } else if w.cl.deleting {
      FinAtStep(w, n, MRelease(ClusterGone));
    } else if Others(w.api.mem, n) == {} {
      FinAtStep(w, n, MRelease(Alone));
    } else if w.api.mem[n].memberID.Some? {
      FinAtStep(w, n, MRemove(w.api.mem[n].memberID.value));
    } else {
      FinAtStep(w, n, MResolve);
    }
  }

  lemma FinResolveInv(w: World, n: Name, i: Id)
    requires MemberRpcs(w.mw) && Finalizers(w.api.mem, w.etcd, w.mw.ctl) && Entries(w.api.used, w.etcd)
    ensures var v := FinResolve(w, n, i); MemberRpcs(v.mw) && Finalizers(v.api.mem, v.etcd, v.mw.ctl)
  {
  }

  lemma FinResolveStep(w: World, n: Name, i: Id)
    requires Inv(w)
    ensures Inv(FinResolve(w, n, i))
  {
    FinResolveInv(w, n, i);
    FewerStep(w, FinResolve(w, n, i));
  }

  lemma FinRemoveFewer(w: World, n: Name, r: Reply)
    requires Finalizers(w.api.mem, w.etcd, w.mw.ctl) && MemberRpcs(w.mw)
    ensures var v := FinRemove(w, n, r);
            FewerEntries(w.etcd, v.etcd) && Finalizers(v.api.mem, v.etcd, v.mw.ctl) && MemberRpcs(v.mw)
  {
    var v := FinRemove(w, n, r);
    assert FewerEntries(w.etcd, v.etcd);
    FewerIds(w.api, w.api, w.etcd, v.etcd);
  }

  lemma FinRemoveStep(w: World, n: Name, r: Reply)
    requires Inv(w)
    ensures Inv(FinRemove(w, n, r))
  {
    FinRemoveFewer(w, n, r);
    FewerStep(w, FinRemove(w, n, r));
  }

  lemma FinReleaseStep(w: World, n: Name)
    requires Inv(w)
    ensures Inv(FinRelease(w, n))
  {
    FewerStep(w, FinRelease(w, n));
  }

  // ---- etcd forms ----

  lemma FormStore(api: Records, etcd: Etcd, etcd': Etcd, n: Name)
    requires StoreInv(api, etcd)
    requires n in api.mem && api.mem[n].memberID.None? && api.mem[n].bootstrap && !api.mem[n].deleting
    requires etcd'.list == map[etcd.nextId := Entry(n, false)] && etcd'.nextId == etcd.nextId + 1
    requires Learners(etcd.list) == {}
    ensures StoreInv(api, etcd')
  {
    assert Learners(etcd'.list) == {};
  }

  lemma FormCtl(c: Ctl, s: Snap, api: Records, etcd: Etcd, etcd': Etcd)
    requires CtlInv(c, s, api, etcd) && !MembershipPoint(c)
    ensures CtlInv(c, s, api, etcd')
  {
  }

  lemma FormFinalizers(mem: Listing, etcd: Etcd, etcd': Etcd, ctl: map<Name, MCtl>, n: Name)
    requires Finalizers(mem, etcd, ctl) && n in mem && !mem[n].deleting
    requires etcd'.list == map[etcd.nextId := Entry(n, false)] && etcd'.nextId == etcd.nextId + 1
    ensures Finalizers(mem, etcd', ctl)
  {
  }

  lemma FormStep(w: World, n: Name, restored: EtcdAuth)
    requires Inv(w)
    ensures Inv(Form(w, n, restored))
  {
    var v := Form(w, n, restored);
    if v.etcd != w.etcd {
      FormStore(w.api, w.etcd, v.etcd, n);
      FormCtl(w.cw.ctl, w.cw.snap, w.api, w.etcd, v.etcd);
      FormFinalizers(w.api.mem, w.etcd, v.etcd, w.mw.ctl, n);
      assert Learners(v.etcd.list) == {};
    }
  }

  lemma EnvironmentStep(w: World, a: Action)
    requires Inv(w)
    ensures Inv(EnvironmentNext(w, a))
  {
    match a
    case EditSpec(spec) => if spec.auth == w.cl.spec.auth { EditSpecStep(w, spec); }
    case ExtDelete(n) => ExtDeleteStep(w, n);
    case EtcdForm(n, restored) => FormStep(w, n, restored);
    case _ =>
  }

  lemma FinalizerStep(w: World, a: Action)
    requires Inv(w)
    ensures Inv(FinalizerNext(w, a))
  {
    match a
    case MFinStart(n) => FinStartStep(w, n);
    case MFinResolve(n, i) => FinResolveStep(w, n, i);
    case MFinRemove(n, r) => FinRemoveStep(w, n, r);
    case MFinRelease(n) => FinReleaseStep(w, n);
    case MCrash(n) => MCrashStep(w, n);
    case _ =>
  }

  lemma PodStep(w: World, a: Action)
    requires Inv(w)
    ensures Inv(PodNext(w, a))
  {
    match a
    case MBuildPod(n, parentRead) => BuildPodStep(w, n, parentRead);
    case MCreatePod(n) => CreatePodStep(w, n);
    case MPodGone(n) => PodGoneStep(w, n);
    case _ =>
  }

  lemma RecordStep(w: World, a: Action)
    requires Inv(w) && RecordAction(a)
    ensures Inv(MemberWrite(w, a))
  {
    if a.MDiscover? {
      DiscoverIdStep(w, a.n, a.i);
    } else {
      FieldStep(w, a);
    }
  }
}
