/** Three ways the life of a volume can go on, each a concrete run: a ready record without its mount, two mounts of
    one volume with different sizes, and a create that reports more than its limit. And the three ways to forget a
    use. */
module Sequels {
  import opened Model
  import opened Calls
  import opened Reconciling
  import opened Passes
  import opened Wire
  import opened Hosts
  import opened Nodes
  import opened NodeCalls
  import opened Systems
  import opened Controllers
  import opened Memory
  import opened Records
  import opened Limits
  import opened Life

  const LIFE := TO_FORMATTING + TO_MARKING + TO_STAGED

  // ----- uses can be forgotten -----

  lemma LifeCanForget()
    ensures Run(START, TO_FORMATTING[..10]) == ACQUIRING && Forgets(ACQUIRING, NodeCalls(I, After("")))
    ensures Run(START, TO_FORMATTING[..11]) == RECORDING
    ensures Forgets(RECORDING, NodeSaves(I, Before(""))) && Forgets(RECORDING, NodeCrashes(I))
  {
    hide Step, Run, NodeApply;
    var t := TO_FORMATTING;
    Joins(); Starts(); Acquires(); AcquireAccepted();
    assert t[..9] + [t[9]] == t[..10] && t[..10] + [t[10]] == t[..11];
    RunThen(START, t[..9], [t[9]]);
    RunThen(START, t[..10], [t[10]]);
    RunOne(JOINED, t[9]);
    RunOne(ACQUIRING, t[10]);
  }

  lemma AcquireAccepted()
    ensures NodeApply(CFG, I, (AcquireUse, PROOF), S3).reply.Done?
  {
    Ids();
  }

  lemma RunOne(y: System, e: Event)
    ensures Run(y, [e]) == Step(y, e)
  {
    hide Step;
    FirstThen(y, e, []);
    assert [e] + [] == [e];
  }

  // ----- a ready record without its mount -----

  const CRASHES_IN_UNSTAGE := [NodeStarts(I, UnstageVolume(V, PATH, true)), NodeHosts(I, Fine), NodeCrashes(I)]

  const UNSTAGING := Now(S5, map[V := D1], Agent(J1, map[PATH := MOUNT], Unmounting(V)), MKFS)
  const RELEASING := Now(S5, map[V := D1], Agent(J1, map[], Releasing(V)), MKFS)
  const BARE := Now(S5, map[V := D1], Agent(J1, map[], Idle(Unavailable)), MKFS)

  lemma Unstages()
    ensures Step(STAGED, CRASHES_IN_UNSTAGE[0]) == UNSTAGING
  {
  }

  lemma Unmounts()
    ensures Step(UNSTAGING, CRASHES_IN_UNSTAGE[1]) == RELEASING
  {
    assert map[PATH := MOUNT] - {PATH} == map[];
  }

  lemma Dies()
    ensures Step(RELEASING, CRASHES_IN_UNSTAGE[2]) == BARE
  {
  }

  /** An agent that dies inside unstage leaves a record that says ready and a stage that is not mounted. */
  lemma ReadyCanLackItsMount()
    ensures Run(START, LIFE + CRASHES_IN_UNSTAGE) == BARE && ReadyAt(BARE.nodes, I, V) && !MountedAt(BARE.nodes, I, V)
  {
    hide Step, Run;
    WholeLife(); DiesInUnstage();
    RunThen(START, LIFE, CRASHES_IN_UNSTAGE);
  }

  lemma DiesInUnstage()
    ensures Run(STAGED, CRASHES_IN_UNSTAGE) == BARE
  {
    hide Step, Run;
    var t := CRASHES_IN_UNSTAGE;
    Unstages(); Unmounts(); Dies();
    Pair(STAGED, t[0], t[1]);
    RunThen(STAGED, [t[0], t[1]], [t[2]]);
    RunOne(RELEASING, t[2]);
    assert t == [t[0], t[1]] + [t[2]];
  }

  // ----- two mounts of different sizes -----

  const TARGET := "/target"
  const RESIZE := ApiCall(CONTROLLER, ResizeVolume, BLANK.(id := V, size := 2), "w")
  const V4 := V3.(desired := 2, state := RESIZING)
  const V5 := V3.(desired := 2, size := 2)
  const S6 := Platform(map[V := V4], map[A := A2])
  const S7 := Platform(map[V := V5], map[A := A2])
  const D2 := D1.(size := 2)
  const GROWN := MOUNT.(size := 2)
  const BIND := PublishRequest(V, PATH, true, TARGET, true, CAPABILITY, ContextOf(A1), false, "p")
  const WANTED := Target(false, "p")
  const J2: Journal := map[V := J1[V].(targets := map[TARGET := WANTED])]
  const BOUND := Mount(V, PATH, "mount", "ext4", false, 1)

  function Resized7(j: Journal, m: Mounts, pc: PC): System { Now(S7, map[V := D2], Agent(j, m, pc), MKFS) }

  const ASKED_FOR_MORE := Now(S6, map[V := D1], Agent(J1, map[PATH := MOUNT], Idle(OK)), MKFS)
  const PROVIDED := Resized7(J1, map[PATH := MOUNT], Idle(OK))
  const CHECKING := Resized7(J1, map[PATH := MOUNT], Checking(V, 2, 0))
  const GROWING := Resized7(J1, map[PATH := MOUNT], Growing(V, V5, 2, 0))
  const UPDATING := Resized7(J1, map[PATH := GROWN], Updating(V, V5, 2, 0))
  const UNSAVED := Resized7(J1, map[PATH := GROWN], Idle(Unavailable))
  const PERMITTING := Resized7(J1, map[PATH := GROWN], Permitting(V, TARGET, WANTED))
  const NOTING := Resized7(J1, map[PATH := GROWN], Noting(V, TARGET, WANTED))
  const BINDING := Resized7(J2, map[PATH := GROWN], Binding(V, TARGET))
  const UNEVEN := Resized7(J2, map[PATH := GROWN, TARGET := BOUND], Idle(OK))

  const GROWS := [RESIZE, Open, VolumeTurn(V, NO_FAULTS), AttachmentTurn(A, NO_FAULTS), Commit]
  const EXPANDS := [NodeStarts(I, ExpandVolume(V, PATH, true, 2, 0)), NodeCalls(I, Fine), NodeHosts(I, Fine),
      NodeSaves(I, Before(""))]
  const BINDS := [NodeStarts(I, PublishVolume(BIND)), NodeCalls(I, Fine), NodeSaves(I, Fine), NodeHosts(I, Fine)]

  lemma AsksForMore()
    ensures Step(STAGED, RESIZE) == ASKED_FOR_MORE
  {
    Ids();
    assert "w"[0] == 'w' && "w" != V && "w" != A;
    assert S5.volumes[V := V4] == S6.volumes;
  }

  lemma GrowItems()
    ensures StepVolume(View(S6, map[V := D1]), V, NO_FAULTS) == View(S7, map[V := D2])
    ensures StepAttachment(CFG, View(S7, map[V := D2]), A, NO_FAULTS) == View(S7, map[V := D2])
  {
    assert IsLiveOn(S6, V, A);
  }

  lemma IsProvided()
    ensures Step(Step(Step(Step(ASKED_FOR_MORE, GROWS[1]), GROWS[2]), GROWS[3]), GROWS[4]) == PROVIDED
  {
    hide StepVolume, StepAttachment;
    GrowItems();
    assert S6.volumes.Keys == {V} && S6.attachments.Keys == {A} && {V} - {V} == {} && {A} - {A} == {};
  }

  lemma CheckAccepted()
    ensures NodeApply(CFG, I, (CheckUse, PROOF), S7) == Applied(Done(Some(V5), Some(A2), None), S7)
    ensures NodeApply(CFG, I, (RecordPublish, PROOF.(podUID := "p")), S7) == Applied(Done(Some(V5), Some(A2), None), S7)
  {
    Ids();
    assert "p"[0] == 'p' && ValidID("p");
  }

  lemma Asks()
    ensures Step(PROVIDED, EXPANDS[0]) == CHECKING
  {
  }

  lemma LargeEnough()
    ensures Answered(CHECKING.nodes[I], Done(Some(V5), Some(A2), None)) == GROWING.nodes[I]
  {
  }

  lemma Checks()
    ensures Step(CHECKING, EXPANDS[1]) == GROWING
  {
    hide NodeApply, Answered;
    CheckAccepted();
    LargeEnough();
  }

  lemma GrowsMount()
    ensures HostStep(GROWING.nodes[I], Fine) == UPDATING.nodes[I]
  {
    assert Grown(map[PATH := MOUNT], V, 2) == map[PATH := GROWN];
    hide Grown;
  }

  lemma Grows()
    ensures Step(GROWING, EXPANDS[2]) == UPDATING
  {
    hide HostStep;
    GrowsMount();
  }

  lemma FailsToSave()
    ensures Step(UPDATING, EXPANDS[3]) == UNSAVED
  {
  }

  lemma Permits()
    ensures Step(UNSAVED, BINDS[0]) == PERMITTING
  {
    hide Begin;
    MayBegin();
  }

  lemma MayBegin()
    ensures Begin(UNSAVED.nodes[I], PublishVolume(BIND)) == PERMITTING.nodes[I]
  {
    Ids();
    assert "p"[0] == 'p' && ValidID("p");
    assert |PATH| != |TARGET|;
    ContextReadsBack(A1);
    hide ContextOf, ProofOf;
  }

  lemma MayBind()
    ensures Step(PERMITTING, BINDS[1]) == NOTING
  {
    hide NodeApply;
    CheckAccepted();
  }

  lemma Notes()
    ensures Step(NOTING, BINDS[2]) == BINDING
  {
    assert J1[V := J1[V].(targets := map[][TARGET := WANTED])] == J2;
  }

  lemma Binds()
    ensures Step(BINDING, BINDS[3]) == UNEVEN
  {
    assert |PATH| != |TARGET|;
    assert map[PATH := GROWN][TARGET := BOUND] == map[PATH := GROWN, TARGET := BOUND];
  }

  lemma GrownAndUnsaved()
    ensures Run(STAGED, GROWS + EXPANDS) == UNSAVED
  {
    hide Step, Run;
    AsksForMore(); IsProvided(); Asks(); Checks(); Grows(); FailsToSave();
    var g, x := GROWS, EXPANDS;
    var open := Step(ASKED_FOR_MORE, g[1]);
    var half := Step(Step(open, g[2]), g[3]);
    Pair(STAGED, g[0], g[1]); Pair(open, g[2], g[3]); RunOne(half, g[4]);
    RunThen(STAGED, [g[0], g[1]], [g[2], g[3]]);
    RunThen(STAGED, [g[0], g[1]] + [g[2], g[3]], [g[4]]);
    assert g == [g[0], g[1]] + [g[2], g[3]] + [g[4]];
    Pair(PROVIDED, x[0], x[1]); Pair(GROWING, x[2], x[3]);
    RunThen(PROVIDED, [x[0], x[1]], [x[2], x[3]]);
    assert x == [x[0], x[1]] + [x[2], x[3]];
    RunThen(STAGED, g, x);
  }

  /** An expand whose last save fails, then a publish: the stage has the new size, the target the old one. */
  lemma SizesCanDiffer()
    ensures Run(START, LIFE + (GROWS + EXPANDS) + BINDS) == UNEVEN && !Even(UNEVEN.nodes[I].mounts, V)
  {
    hide Step, Run;
    WholeLife(); GrownAndUnsaved(); BindsUneven(); TwoSizes();
    RunThen(START, LIFE, GROWS + EXPANDS);
    RunThen(START, LIFE + (GROWS + EXPANDS), BINDS);
  }

  lemma BindsUneven()
    ensures Run(UNSAVED, BINDS) == UNEVEN
  {
    hide Step, Run;
    Permits(); MayBind(); Notes(); Binds();
    Four(UNSAVED, BINDS);
  }

  lemma TwoSizes()
    ensures !Even(UNEVEN.nodes[I].mounts, V)
  {
    var m := UNEVEN.nodes[I].mounts;
    assert |PATH| != |TARGET|;
    assert m[PATH].volume == V && m[TARGET].volume == V && m[PATH].size != m[TARGET].size;
  }

  // ----- a create beyond its limit -----

  const TO_PROVISIONED := [MAKE, Open, VolumeTurn(V, NO_FAULTS), Commit]
  const RESIZED := [RESIZE, Open, VolumeTurn(V, NO_FAULTS), Commit]
  const WANTING := V1.(desired := 2, state := RESIZING)
  const LARGER := V1.(desired := 2, size := 2)
  const S1W := Platform(map[V := WANTING], map[])
  const S1L := Platform(map[V := LARGER], map[])
  const ENLARGED := Now(S1L, map[V := D0.(size := 2)], IDLE, map[])

  lemma CreateAgain(s: Platform, v: Volume)
    requires s == Platform(map[V := v], map[]) && v.spec == V0.spec && !v.deleteRequested
    ensures Apply(CFG, CONTROLLER, CreateVolume, CREATE, "w", s) == Applied(Done(Some(v), None, None), s)
  {
    Ids();
    assert "z" in CFG.zones["r"];
    assert IsNamed(s, CONTROLLER, "n", V);
  }

  lemma Resizes()
    ensures Step(PROVISIONED, RESIZE) == Now(S1W, map[V := D0], IDLE, map[])
    ensures ResizesBeyond(PROVISIONED, RESIZE, V, 1)
  {
    Ids();
    assert "w"[0] == 'w' && "w" != V;
    assert S1.volumes[V := WANTING] == S1W.volumes;
  }

  lemma Enlarges()
    ensures Step(Step(Step(Now(S1W, map[V := D0], IDLE, map[]), RESIZED[1]), RESIZED[2]), RESIZED[3]) == ENLARGED
  {
    assert !Busy(S1W, V);
    assert StepVolume(View(S1W, map[V := D0]), V, NO_FAULTS) == View(S1L, map[V := D0.(size := 2)]);
    assert {V} - {V} == {} && S1W.volumes.Keys == {V} && S1W.attachments.Keys == {};
  }

  /** A create is answered with one byte, within a limit of one; the volume is resized to two; the same create is then
      answered with two. */
  lemma LimitCanBeExceeded()
    ensures Run(START, TO_PROVISIONED) == PROVISIONED && Run(PROVISIONED, RESIZED) == ENLARGED
    ensures ResizedBeyond(PROVISIONED, RESIZED, V, 1)
    ensures CreateReply(Apply(CFG, CONTROLLER, CreateVolume, CREATE, "w", PROVISIONED.platform).reply).Answer?
    ensures CreateReply(Apply(CFG, CONTROLLER, CreateVolume, CREATE, "w", PROVISIONED.platform).reply).value.capacity
        == 1
    ensures CreateReply(Apply(CFG, CONTROLLER, CreateVolume, CREATE, "w", ENLARGED.platform).reply).Answer?
    ensures CreateReply(Apply(CFG, CONTROLLER, CreateVolume, CREATE, "w", ENLARGED.platform).reply).value.capacity == 2
  {
    hide Step, Run, Apply;
    Creates(); Provisions(); Resizes(); Enlarges();
    CreateAgain(S1, V1); CreateAgain(S1L, LARGER);
    Four(START, TO_PROVISIONED);
    Four(PROVISIONED, RESIZED);
  }

  lemma Four(y: System, es: seq<Event>)
    requires |es| == 4
    ensures Run(y, es) == Step(Step(Step(Step(y, es[0]), es[1]), es[2]), es[3])
  {
    hide Step, Run;
    Pair(y, es[0], es[1]);
    Pair(Step(Step(y, es[0]), es[1]), es[2], es[3]);
    RunThen(y, [es[0], es[1]], [es[2], es[3]]);
    assert es == [es[0], es[1]] + [es[2], es[3]];
  }
}
