/**
 * What the server resource's handlers promise, stated on the scripts and
 * reports that specify them (see `Provider`): which calls each handler
 * makes, in what order, and what it reports back.
 */
module ProviderFacts {
  import opened Wrappers
  import opened HttpClient
  import opened ServerApi
  import opened FakeRobot
  import opened Provider

  lemma CountOne(c: Call, k: CallKind)
    ensures Count([c], k) == if KindOf(c) == k then 1 else 0
  {
    assert [c][1..] == [];
  }

  lemma CountThree(a: seq<Call>, b: seq<Call>, c: seq<Call>, k: CallKind)
    ensures Count(a + b + c, k) == Count(a, k) + Count(b, k) + Count(c, k)
  {
    CountConcat(a + b, c, k);
    CountConcat(a, b, k);
  }

  // ---------------------------------------------------------------------
  // Create.

  /**
   * Once the server is fetched, Create fetches it exactly once (first),
   * renames it exactly when the planned name differs from the fetched one,
   * enables rescue mode exactly when `rescue` is true and an OS is given,
   * and never disables it.
   */
  lemma CreateCalls(plan: ServerResourceModel, current: Server)
    ensures var s := CreateScript(plan, Some(current));
      && s[0] == Get(ValueString(plan.id))
      && Count(s, GetKind) == 1
      && Count(s, UpdateKind) == (if ValueString(plan.name) != current.name then 1 else 0)
      && Count(s, EnableKind) == (if IsTrue(plan.rescue) && plan.rescueOS.Some? then 1 else 0)
      && Count(s, DisableKind) == 0
  {
    var id := ValueString(plan.id);
    assert CreateScript(plan, Some(current)) == [Get(id)] + CreateRename(plan, current) + CreateEnable(plan);
    CountThree([Get(id)], CreateRename(plan, current), CreateEnable(plan), GetKind);
    CountThree([Get(id)], CreateRename(plan, current), CreateEnable(plan), UpdateKind);
    CountThree([Get(id)], CreateRename(plan, current), CreateEnable(plan), EnableKind);
    CountThree([Get(id)], CreateRename(plan, current), CreateEnable(plan), DisableKind);
    CountOne(Get(id), GetKind);
    CountOne(Get(id), UpdateKind);
    CountOne(Get(id), EnableKind);
    CountOne(Get(id), DisableKind);
    if ValueString(plan.name) != current.name {
      var u := Update(id, ValueString(plan.name));
      CountOne(u, GetKind);
      CountOne(u, UpdateKind);
      CountOne(u, EnableKind);
      CountOne(u, DisableKind);
    }
    if WantsRescueOnCreate(plan) {
      var e := EnableRescue(id, ServerRescueOptions(ValueString(plan.rescueOS), []));
      CountOne(e, GetKind);
      CountOne(e, UpdateKind);
      CountOne(e, EnableKind);
      CountOne(e, DisableKind);
    }
  }

  /** The rescue call Create makes carries the planned OS and no SSH keys. */
  lemma CreateEnablesPlannedOS(plan: ServerResourceModel, current: Server, c: Call)
    requires c in CreateScript(plan, Some(current)) && c.EnableRescue?
    ensures plan.rescueOS.Some? && c == EnableRescue(ValueString(plan.id), ServerRescueOptions(plan.rescueOS.value, []))
  {
    var id := ValueString(plan.id);
    var head := [Get(id)] + CreateRename(plan, current);
    assert CreateScript(plan, Some(current)) == head + CreateEnable(plan);
    assert forall x | x in head :: !x.EnableRescue?;
  }

  /** When the first fetch fails, Create makes no further call. */
  lemma CreateStopsAtFailedFetch(plan: ServerResourceModel, b: Behaviour, st: State)
    requires Refusal(b, st, Get(ValueString(plan.id))).Some?
    ensures var fin := Execute(b, st, CreateScript(plan, Lookup(st.servers, ValueString(plan.id))));
      && fin.state.log == st.log + [Get(ValueString(plan.id))]
      && fin.halt == Some(Halt(Get(ValueString(plan.id)), Refusal(b, st, Get(ValueString(plan.id))).value))
  {
    var id := ValueString(plan.id);
    var s := CreateScript(plan, Lookup(st.servers, id));
    assert s == [Get(id)] + s[1..];
    ExecuteConcat(b, st, [Get(id)], s[1..]);
  }

  /** A server that answers to its id is fetched, and an unknown id is
      reported as not found. */
  lemma CreateUnknownServer(plan: ServerResourceModel, b: Behaviour, st: State)
    requires ValueString(plan.id) !in st.servers && |st.log| !in b.failures
    ensures var fin := Execute(b, st, CreateScript(plan, Lookup(st.servers, ValueString(plan.id))));
      Diagnostics(fin, None) == [ClientError(Get(ValueString(plan.id)), NotFound)]
  {
    CreateStopsAtFailedFetch(plan, b, st);
  }

  /**
   * Create reports the name the service holds once it is done: the answer to
   * its rename (which need not be the planned name) when it renamed, else
   * the fetched name. The calls after the rename do not touch the name.
   */
  lemma CreateReportName(plan: ServerResourceModel, b: Behaviour, st: State)
    requires ValueString(plan.id) in st.servers
    requires Execute(b, st, CreateScript(plan, Lookup(st.servers, ValueString(plan.id)))).halt.None?
    ensures var after := Execute(b, st, CreateScript(plan, Lookup(st.servers, ValueString(plan.id)))).state;
      var renamedTo := NameAfter(b, |st.log| + 1, ValueString(plan.name));
      && ValueString(plan.id) in after.servers
      && Observed(plan, CreateReported(plan, st.servers[ValueString(plan.id)], renamedTo)).name ==
         Some(after.servers[ValueString(plan.id)].name)
  {
    var id := ValueString(plan.id);
    var current := st.servers[id];
    var rename := CreateRename(plan, current);
    var enable := CreateEnable(plan);
    assert CreateScript(plan, Lookup(st.servers, id)) == [Get(id)] + (rename + enable);
    ExecuteConcat(b, st, [Get(id)], rename + enable);
    var one := Execute(b, st, [Get(id)]);
    assert one == Step(b, st, Get(id));
    ExecuteConcat(b, one.state, rename, enable);
    var two := Execute(b, one.state, rename);
    if rename != [] {
      assert two == Step(b, one.state, rename[0]);
    }
    assert two.state.servers[id].name == CreateReported(plan, current, NameAfter(b, |st.log| + 1, ValueString(plan.name))).name;
    ExecuteKeepsNames(b, two.state, enable);
  }

  /**
   * The report of a Create that enabled rescue mode on a server that was not
   * in rescue still says rescue is off, although the server now runs the
   * planned rescue OS: the report is built from the object fetched before
   * the enable call.
   */
  lemma CreateReportIsStale(plan: ServerResourceModel, b: Behaviour, st: State)
    requires ValueString(plan.id) in st.servers && st.servers[ValueString(plan.id)].rescueOS == ""
    requires IsTrue(plan.rescue) && plan.rescueOS.Some?
    requires Execute(b, st, CreateScript(plan, Lookup(st.servers, ValueString(plan.id)))).halt.None?
    ensures var after := Execute(b, st, CreateScript(plan, Lookup(st.servers, ValueString(plan.id)))).state;
      && ValueString(plan.id) in after.servers
      && after.servers[ValueString(plan.id)].rescueOS == plan.rescueOS.value
    ensures forall renamedTo :: Observed(plan, CreateReported(plan, st.servers[ValueString(plan.id)], renamedTo)).rescue == Some(false)
  {
    var id := ValueString(plan.id);
    var current := st.servers[id];
    var head := [Get(id)] + CreateRename(plan, current);
    var e := EnableRescue(id, ServerRescueOptions(plan.rescueOS.value, []));
    assert CreateScript(plan, Lookup(st.servers, id)) == head + [e];
    ExecuteConcat(b, st, head, [e]);
    var mid := Execute(b, st, head);
    ExecuteKeepsIds(b, st, head);
    assert Execute(b, mid.state, [e]) == Step(b, mid.state, e);
  }

  // ---------------------------------------------------------------------
  // Read and the record filled from a server.

  /** Reading a server twice in a row reports the same record the second
      time as the first. */
  lemma ObservedIdempotent(data: ServerResourceModel, server: Server)
    ensures Observed(Observed(data, server), server) == Observed(data, server)
  {
  }

  // ---------------------------------------------------------------------
  // Update.

  /** Update renames exactly when the name attribute changed (a null name
      counts as a change from a set one), and the rename is its first call. */
  lemma UpdateRenames(plan: ServerResourceModel, prior: ServerResourceModel)
    ensures var s := UpdateScript(plan, prior);
      && Count(s, UpdateKind) == (if plan.name != prior.name then 1 else 0)
      && (plan.name != prior.name ==> s[0] == Update(ValueString(plan.id), ValueString(plan.name)))
  {
    var id := ValueString(plan.id);
    var t := RescueTransition(plan, prior);
    var tail := if t == MissingOS then [] else [Get(id)];
    TransitionCounts(id, t);
    CountThree(UpdateRename(plan, prior), TransitionCalls(id, t), tail, UpdateKind);
    if plan.name != prior.name {
      CountOne(Update(id, ValueString(plan.name)), UpdateKind);
    }
    if t != MissingOS {
      CountOne(Get(id), UpdateKind);
    }
  }

  lemma TransitionCounts(id: string, t: Transition)
    ensures Count(TransitionCalls(id, t), UpdateKind) == 0
    ensures Count(TransitionCalls(id, t), GetKind) == 0
    ensures Count(TransitionCalls(id, t), EnableKind) == (if t.Enable? || t.Reenable? then 1 else 0)
    ensures Count(TransitionCalls(id, t), DisableKind) == (if t.Disable? || t.Reenable? then 1 else 0)
  {
    match t
    case Keep =>
    case MissingOS =>
    case Enable(os) =>
      var e := EnableRescue(id, ServerRescueOptions(os, []));
      CountOne(e, UpdateKind); CountOne(e, GetKind); CountOne(e, EnableKind); CountOne(e, DisableKind);
    case Disable =>
      var d := DisableRescue(id);
      CountOne(d, UpdateKind); CountOne(d, GetKind); CountOne(d, EnableKind); CountOne(d, DisableKind);
    case Reenable(os) =>
      var d := DisableRescue(id);
      var e := EnableRescue(id, ServerRescueOptions(os, []));
      assert [d, e] == [d] + [e];
      CountConcat([d], [e], UpdateKind); CountConcat([d], [e], GetKind);
      CountConcat([d], [e], EnableKind); CountConcat([d], [e], DisableKind);
      CountOne(e, UpdateKind); CountOne(e, GetKind); CountOne(e, EnableKind); CountOne(e, DisableKind);
      CountOne(d, UpdateKind); CountOne(d, GetKind); CountOne(d, EnableKind); CountOne(d, DisableKind);
  }

  /**
   * The rescue calls of Update, by case: off to on enables once; on to off
   * disables once; on to on with another OS disables and then enables;
   * otherwise (same OS, off to off, or on requested without an OS) there is
   * no rescue call. Every enable carries the planned OS.
   */
  lemma UpdateRescueCalls(plan: ServerResourceModel, prior: ServerResourceModel)
    ensures var s := UpdateScript(plan, prior);
      var requested := IsTrue(plan.rescue);
      var current := IsTrue(prior.rescue);
      && Count(s, EnableKind) ==
           (if requested && ((!current && plan.rescueOS.Some?) || (current && plan.rescueOS != prior.rescueOS)) then 1 else 0)
      && Count(s, DisableKind) ==
           (if current && (!requested || plan.rescueOS != prior.rescueOS) then 1 else 0)
    ensures forall c | c in UpdateScript(plan, prior) && c.EnableRescue? ::
      c == EnableRescue(ValueString(plan.id), ServerRescueOptions(ValueString(plan.rescueOS), []))
  {
    var id := ValueString(plan.id);
    var t := RescueTransition(plan, prior);
    var rename := UpdateRename(plan, prior);
    var tail := if t == MissingOS then [] else [Get(id)];
    TransitionCounts(id, t);
    CountThree(rename, TransitionCalls(id, t), tail, EnableKind);
    CountThree(rename, TransitionCalls(id, t), tail, DisableKind);
    if plan.name != prior.name {
      CountOne(Update(id, ValueString(plan.name)), EnableKind);
      CountOne(Update(id, ValueString(plan.name)), DisableKind);
    }
    if t != MissingOS {
      CountOne(Get(id), EnableKind);
      CountOne(Get(id), DisableKind);
    }
    forall c | c in UpdateScript(plan, prior) && c.EnableRescue?
      ensures c == EnableRescue(id, ServerRescueOptions(ValueString(plan.rescueOS), []))
    {
      assert c in rename + TransitionCalls(id, t) + tail;
    }
  }

  /** On to on with another OS: the disable call comes right before the enable. */
  lemma UpdateReenableOrder(plan: ServerResourceModel, prior: ServerResourceModel)
    requires IsTrue(plan.rescue) && IsTrue(prior.rescue) && plan.rescueOS != prior.rescueOS
    ensures var s := UpdateScript(plan, prior);
      var i := |UpdateRename(plan, prior)|;
      && i + 1 < |s|
      && s[i] == DisableRescue(ValueString(plan.id))
      && s[i + 1] == EnableRescue(ValueString(plan.id), ServerRescueOptions(ValueString(plan.rescueOS), []))
  {
  }

  /** When the disable of an OS change fails, the enable is not attempted:
      the disable is the last call made. */
  lemma UpdateReenableStopsAtDisable(plan: ServerResourceModel, prior: ServerResourceModel,
                                     b: Behaviour, st: State)
    requires IsTrue(plan.rescue) && IsTrue(prior.rescue) && plan.rescueOS != prior.rescueOS
    requires Execute(b, st, UpdateRename(plan, prior)).halt.None?
    requires Refusal(b, Execute(b, st, UpdateRename(plan, prior)).state, DisableRescue(ValueString(plan.id))).Some?
    ensures Execute(b, st, UpdateScript(plan, prior)).state.log ==
      Execute(b, st, UpdateRename(plan, prior)).state.log + [DisableRescue(ValueString(plan.id))]
  {
    var id := ValueString(plan.id);
    var rest := [EnableRescue(id, ServerRescueOptions(ValueString(plan.rescueOS), [])), Get(id)];
    assert UpdateScript(plan, prior) == UpdateRename(plan, prior) + [DisableRescue(id)] + rest;
    Failed(b, st, UpdateRename(plan, prior), DisableRescue(id), rest);
  }

  /**
   * Rescue requested while off, with no OS: Update stops with the missing
   * parameter error after the rename, which stays done, and makes neither a
   * rescue call nor the final fetch.
   */
  lemma UpdateMissingOS(plan: ServerResourceModel, prior: ServerResourceModel, b: Behaviour, st: State)
    requires IsTrue(plan.rescue) && !IsTrue(prior.rescue) && plan.rescueOS.None?
    ensures UpdateScript(plan, prior) == UpdateRename(plan, prior)
    ensures var fin := Execute(b, st, UpdateScript(plan, prior));
      fin.halt.None? ==> Diagnostics(fin, UpdateStop(plan, prior)) == [MissingRescueOS]
  {
    assert UpdateScript(plan, prior) == UpdateRename(plan, prior) + [] + [];
  }

  /** The final fetch is the last call of a run that reaches it. */
  lemma UpdateFetchesLast(plan: ServerResourceModel, prior: ServerResourceModel)
    requires RescueTransition(plan, prior) != MissingOS
    ensures var s := UpdateScript(plan, prior);
      && s[|s| - 1] == Get(ValueString(plan.id))
      && Count(s, GetKind) == 1
  {
    var id := ValueString(plan.id);
    var t := RescueTransition(plan, prior);
    TransitionCounts(id, t);
    CountThree(UpdateRename(plan, prior), TransitionCalls(id, t), [Get(id)], GetKind);
    CountOne(Get(id), GetKind);
    if plan.name != prior.name {
      CountOne(Update(id, ValueString(plan.name)), GetKind);
    }
  }

  /**
   * When Update renamed, it reports the name the service holds once it is
   * done, which is the rename's answer: the rescue calls and the final fetch
   * do not touch the name.
   */
  lemma UpdateReportName(plan: ServerResourceModel, prior: ServerResourceModel, b: Behaviour, st: State)
    requires plan.name != prior.name
    requires ValueString(plan.id) in st.servers
    requires Execute(b, st, UpdateScript(plan, prior)).halt.None?
    ensures var after := Execute(b, st, UpdateScript(plan, prior)).state;
      var renamedTo := NameAfter(b, |st.log|, ValueString(plan.name));
      && ValueString(plan.id) in after.servers
      && UpdateReport(plan, prior, renamedTo, after.servers[ValueString(plan.id)]).name ==
         Some(after.servers[ValueString(plan.id)].name)
  {
    var id := ValueString(plan.id);
    var t := RescueTransition(plan, prior);
    var u := Update(id, ValueString(plan.name));
    var rest := TransitionCalls(id, t) + (if t == MissingOS then [] else [Get(id)]);
    assert UpdateScript(plan, prior) == [u] + rest;
    forall c | c in rest ensures !c.Update? {
      assert c in TransitionCalls(id, t) || c == Get(id);
    }
    ExecuteRenameFirst(b, st, id, ValueString(plan.name), rest);
  }

  /**
   * Planning the same record again against what a successful Update reported
   * issues only the final fetch, unless Update renamed and the service
   * answered with another name than the planned one: then the next plan
   * renames again. A null planned name always differs from the answer.
   */
  lemma UpdateConverges(plan: ServerResourceModel, prior: ServerResourceModel, renamedTo: string, final: Server)
    requires RescueTransition(plan, prior) != MissingOS
    ensures var saved := UpdateReport(plan, prior, renamedTo, final);
      var id := ValueString(plan.id);
      UpdateScript(plan, saved) ==
        if plan.name != prior.name && plan.name != Some(renamedTo) then [Update(id, ValueString(plan.name)), Get(id)]
        else [Get(id)]
  {
    var saved := UpdateReport(plan, prior, renamedTo, final);
    assert IsTrue(saved.rescue) == IsTrue(plan.rescue);
    assert IsTrue(plan.rescue) ==> saved.rescueOS == plan.rescueOS;
    assert RescueTransition(plan, saved) == Keep;
  }

  /**
   * The OS-change branch has no null guard: with rescue on on both sides and
   * the planned OS null while the prior one is set, Update disables rescue
   * mode and re-enables it with the empty OS.
   */
  lemma UpdateReenablesWithEmptyOS(plan: ServerResourceModel, prior: ServerResourceModel)
    requires IsTrue(plan.rescue) && IsTrue(prior.rescue) && plan.rescueOS.None? && prior.rescueOS.Some?
    ensures RescueTransition(plan, prior) == Reenable("")
    ensures EnableRescue(ValueString(plan.id), ServerRescueOptions("", [])) in UpdateScript(plan, prior)
  {
    var id := ValueString(plan.id);
    assert UpdateScript(plan, prior) ==
      UpdateRename(plan, prior) + [DisableRescue(id), EnableRescue(id, ServerRescueOptions("", []))] + [Get(id)];
    assert UpdateScript(plan, prior)[|UpdateRename(plan, prior)| + 1] == EnableRescue(id, ServerRescueOptions("", []));
  }
}
