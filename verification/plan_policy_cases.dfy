/** Plans the policy must reject whatever else they say, and the release it is there to accept. */
module PlanPolicyCases {
  import opened Common
  import opened PlanPolicy

  predicate Has(j: Json, key: string) {
    j.Obj? && key in j.fields
  }

  /** The plan says that it is broken, partial or waiting. */
  predicate Unfinished(plan: Json) {
    || (Has(plan, "errored") && plan.fields["errored"] == Bool(true))
    || (Has(plan, "complete") && plan.fields["complete"] == Bool(false))
    || (Has(plan, "deferred_changes") && plan.fields["deferred_changes"].Arr? && plan.fields["deferred_changes"].elements != [])
  }

  lemma UnfinishedIsRejected(plan: Json, mode: Mode)
    requires Unfinished(plan) || !plan.Obj? || (Has(plan, "resource_changes") && !plan.fields["resource_changes"].Arr?)
    ensures !Accepted(plan, mode)
  {
  }

  /** One entry of the plan. */
  predicate Lists(plan: Json, resource: Json) {
    Has(plan, "resource_changes") && plan.fields["resource_changes"].Arr? && resource in plan.fields["resource_changes"].elements
  }

  predicate Named(resource: Json, address: string) {
    Has(resource, "address") && resource.fields["address"] == Str(address)
  }

  predicate Acts(resource: Json, actions: seq<string>) {
    && Has(resource, "change") && Has(resource.fields["change"], "actions")
    && resource.fields["change"].fields["actions"] == Arr(seq(|actions|, i requires 0 <= i < |actions| => Str(actions[i])))
  }

  /** It is left over from an earlier apply, or belongs to the retired workers. */
  predicate Leftover(resource: Json) {
    || (Has(resource, "deposed") && resource.fields["deposed"].Str? && resource.fields["deposed"].s != "")
    || Named(resource, "cloudflare_worker.live") || Named(resource, "cloudflare_worker_version.live")
    || Named(resource, "cloudflare_workers_deployment.live") || Named(resource, "cloudflare_workers_route.live")
  }

  /** It destroys something, alone or for a replacement. */
  predicate Destroys(resource: Json) {
    Acts(resource, ["delete"]) || Acts(resource, ["create", "delete"]) || Acts(resource, ["delete", "create"])
  }

  /** It takes an existing resource over. */
  predicate Imports(resource: Json) {
    && Has(resource, "change") && Has(resource.fields["change"], "importing")
    && resource.fields["change"].fields["importing"].Obj? && resource.fields["change"].fields["importing"].fields != map[]
  }

  predicate Changes(resource: Json) {
    Acts(resource, ["create"]) || Acts(resource, ["update"])
  }

  /** What the policy sees of the actions. */
  lemma ActsMeans(resource: Json)
    ensures var actions := ParseActions(Get(Change(resource), "actions", Null));
            && (Destroys(resource) ==> actions == Some(Delete) || actions == Some(Replace))
            && (Changes(resource) ==> actions == Some(Create) || actions == Some(Update))
            && (Acts(resource, ["update"]) <==> actions == Some(Update))
  {
    ListIs(["delete"]);
    ListIs(["create"]);
    ListIs(["update"]);
    ListIs(["create", "delete"]);
    ListIs(["delete", "create"]);
  }

  /** A list of one or two strings, as an array. */
  lemma ListIs(names: seq<string>)
    requires 1 <= |names| <= 2
    ensures Arr(seq(|names|, i requires 0 <= i < |names| => Str(names[i]))) ==
            if |names| == 1 then Arr([Str(names[0])]) else Arr([Str(names[0]), Str(names[1])])
  {
    assert seq(|names|, i requires 0 <= i < |names| => Str(names[i])) ==
           if |names| == 1 then [Str(names[0])] else [Str(names[0]), Str(names[1])];
  }

  lemma ListedIsAllowed(plan: Json, resource: Json, mode: Mode)
    requires Lists(plan, resource) && Accepted(plan, mode)
    ensures Allowed(resource, mode)
  {
    var i :| 0 <= i < |plan.fields["resource_changes"].elements| && plan.fields["resource_changes"].elements[i] == resource;
    assert Resources(plan)[i] == resource;
  }

  /** In no mode is a plan accepted that lists a leftover, destroys anything, or changes a resource outside the reviewed
      set; an import only when configuring; and in a release only updates of the machine. */
  lemma UnreviewedIsRejected(plan: Json, resource: Json, mode: Mode)
    requires Lists(plan, resource)
    requires || Leftover(resource) || Destroys(resource) || (Imports(resource) && mode != Configure)
             || (Changes(resource) && forall address :: address in CONFIGURE_RESOURCES ==> !Named(resource, address))
             || (Changes(resource) && mode == Release && !(Named(resource, MACHINE) && Acts(resource, ["update"])))
    ensures !Accepted(plan, mode)
  {
    ActsMeans(resource);
    if Accepted(plan, mode) { ListedIsAllowed(plan, resource, mode); }
  }

  // ---- the release ----

  /** A plan whose only change gives the machine another image. */
  function ImageRelease(before: map<string, Json>, image: Json): Json {
    Obj(map["resource_changes" := Arr([MachineUpdate(before, before["image" := image])])])
  }

  function MachineUpdate(before: map<string, Json>, after: map<string, Json>): Json {
    Obj(map["address" := Str(MACHINE),
            "change" := Obj(map["actions" := Arr([Str("update")]), "before" := Obj(before), "after" := Obj(after)])])
  }

  /** The mounts are a list of blocks, or there are none. */
  predicate WellMounted(machine: map<string, Json>) {
    "mount" in machine ==>
      && machine["mount"].Arr?
      && forall i | 0 <= i < |machine["mount"].elements| :: machine["mount"].elements[i].Obj?
  }

  lemma ImageKeepsMounts(before: map<string, Json>, image: Json)
    requires WellMounted(before)
    ensures MountsKept(MachineUpdate(before, before["image" := image]))
  {
    var after := before["image" := image];
    assert Get(Obj(after), "mount", Arr([])) == Get(Obj(before), "mount", Arr([]));
  }

  lemma ImageIsAll(before: map<string, Json>, image: Json)
    ensures ImageOnly(MachineUpdate(before, before["image" := image]))
  {
    assert Settled(before["image" := image]) == Settled(before);
  }

  /** The policy is not only there to refuse: whatever the machine is and whatever the image, the plan that only changes
      the image is accepted, as a release and so in every mode. */
  lemma ImageReleaseIsAccepted(before: map<string, Json>, image: Json, mode: Mode)
    requires WellMounted(before)
    ensures Accepted(ImageRelease(before, image), mode)
  {
    UpdateIsAllowed(before, image);
    assert Resources(ImageRelease(before, image)) == [MachineUpdate(before, before["image" := image])];
    ModesNest(ImageRelease(before, image));
  }

  lemma UpdateIsAllowed(before: map<string, Json>, image: Json)
    requires WellMounted(before)
    ensures Allowed(MachineUpdate(before, before["image" := image]), Release)
  {
    ImageKeepsMounts(before, image);
    ImageIsAll(before, image);
  }

  // ---- what an apply keeps, field by field ----

  /** Whatever else a release changes, no field of the machine but its image and the four that the provider computes. */
  lemma ReleaseKeepsField(plan: Json, states: seq<State>, k: string)
    requires Accepted(plan, Release) && Applies(states, Resources(plan))
    requires k != "image" && k != "id" && k != "instance_id" && k != "private_ip" && k != "state"
    ensures var state, next := states[0], states[|states| - 1];
            MACHINE in state && state[MACHINE].Obj? ==>
              && MACHINE in next && next[MACHINE].Obj?
              && (k in state[MACHINE].fields <==> k in next[MACHINE].fields)
              && (k in state[MACHINE].fields ==> Same(state[MACHINE].fields[k], next[MACHINE].fields[k]))
  {
    ReleaseChangesOnlyTheImage(plan, states);
    if MACHINE in states[0] && states[0][MACHINE].Obj? {
      FieldIsSettled(states[0][MACHINE].fields, k);
      FieldIsSettled(states[|states| - 1][MACHINE].fields, k);
    }
  }

  lemma FieldIsSettled(fields: map<string, Json>, k: string)
    requires k != "image" && k != "id" && k != "instance_id" && k != "private_ip" && k != "state"
    ensures k in fields <==> k in Settled(fields)
    ensures k in fields ==> Settled(fields)[k] == Plain(fields[k])
  {
  }

  /** The mount blocks of a machine. */
  predicate Mounted(machine: Json) {
    machine.Obj? && "mount" in machine.fields && machine.fields["mount"].Arr?
  }

  lemma AgreeMeans(a: Json, b: Json, i: nat)
    requires MountsAgree(a, b) && Mounted(a) && Mounted(b)
    ensures var x, y := a.fields["mount"].elements, b.fields["mount"].elements;
            && |x| == |y|
            && (i < |x| ==>
                  && Same(Get(x[i], "path", Null), Get(y[i], "path", Null))
                  && Same(Get(x[i], "volume", Null), Get(y[i], "volume", Null)))
  {
    if a != b {
      var m, n := Mounts(a).value, Mounts(b).value;
      assert |m| == |a.fields["mount"].elements| && |n| == |b.fields["mount"].elements|;
      if i < |m| {
        assert m[i] == (Get(a.fields["mount"].elements[i], "path", Null), Get(a.fields["mount"].elements[i], "volume", Null));
        assert n[i] == (Get(b.fields["mount"].elements[i], "path", Null), Get(b.fields["mount"].elements[i], "volume", Null));
      }
    }
  }

  /** In every mode an existing machine keeps as many mounts, each at its path and on its volume. */
  lemma MountsStay(plan: Json, mode: Mode, states: seq<State>, i: nat)
    requires Accepted(plan, mode) && Applies(states, Resources(plan)) && MACHINE in states[0] && Mounted(states[0][MACHINE])
    ensures var next := states[|states| - 1];
            && MACHINE in next
            && (Mounted(next[MACHINE]) ==>
                  var a, b := states[0][MACHINE].fields["mount"].elements, next[MACHINE].fields["mount"].elements;
                  && |a| == |b|
                  && (i < |a| ==>
                        && Same(Get(a[i], "path", Null), Get(b[i], "path", Null))
                        && Same(Get(a[i], "volume", Null), Get(b[i], "volume", Null))))
  {
    AcceptedPlanKeeps(plan, mode, states);
    var next := states[|states| - 1];
    if Mounted(next[MACHINE]) { AgreeMeans(states[0][MACHINE], next[MACHINE], i); }
  }
}
