/** One concrete run, from empty stores to a formatted, mounted and reported volume. It shows that the states the
    promises speak of are reached, so that none of them holds only for want of an example. */
module Life {
  import opened Model
  import opened Provider
  import opened Calls
  import opened Reconciling
  import opened Passes
  import opened Wire
  import opened Hosts
  import opened Nodes
  import opened NodeInvariant
  import opened NodeCalls
  import opened Systems
  import opened Safety
  import opened Forever

  // ----- who and what -----

  const I := "i"
  const V := "v"
  const A := "a"
  const PATH := "/stage"
  const HASH: UseHash := (volume, path, generation) => "u"
  const CFG := Config(map[I := Instance(I, "t", "c", "r", "z", true)], map["r" := ["z"]])
  const CONTROLLER := Principal("controller", "t", "c", "")
  const CREATE := BLANK.(name := "n", size := 1, kind := "standard", region := "r", zone := "z", mode := "mount",
      fsType := "ext4")
  const ATTACH := BLANK.(volume := V, instance := I)
  const CAPABILITY := Capability(true, MountAccess("ext4", [], ""))

  // ----- the records as they change -----

  const V0 := NewVolume(CONTROLLER, CREATE, V)
  const V1 := V0.(state := AVAILABLE, deviceKey := DeviceKeyOf(V), size := 1)
  const V2 := V1.(generation := 1)
  const V3 := V2.(allowFormat := false)
  const A0 := Attachment(A, Link("t", "c", V, I, 1), ATTACHING, false, {}, Clear)
  const A1 := A0.(state := ATTACHED)
  const A2 := A1.(uses := {"u"})
  const D0 := Disk(V, DeviceKeyOf(V), 1, "", "")
  const D1 := D0.(instance := I, attachment := A)
  const PROOF := BLANK.(volume := V, attachment := A, generation := 1, use := "u", mode := "mount", fsType := "ext4")
  const STAGE := Stage(V2, PROOF, PATH, false, map[])
  const MOUNT := Mount(V, DeviceKeyOf(V), "mount", "ext4", false, 1)
  const REQUEST := StageRequest(V, PATH, true, CAPABILITY, ContextOf(A1))

  function Agent(j: Journal, m: Mounts, pc: PC): Node { Node(HASH, j, m, pc) }

  function Now(s: Platform, c: Cloud, n: Node, sigs: map<string, seq<string>>): System {
    System(CFG, s, c, None, map[I := n], {I}, sigs, {})
  }

  const IDLE := Agent(map[], map[], Idle(OK))
  const EMPTY := Platform(map[], map[])
  const S0 := Platform(map[V := V0], map[])
  const S1 := Platform(map[V := V1], map[])
  const S2 := Platform(map[V := V2], map[A := A0])
  const S3 := Platform(map[V := V2], map[A := A1])
  const S4 := Platform(map[V := V2], map[A := A2])
  const S5 := Platform(map[V := V3], map[A := A2])
  const J0: Journal := map[V := STAGE]
  const J1: Journal := map[V := STAGE.(volume := V3, ready := true)]
  const MKFS := map[V := ["ext4"]]

  // ----- the run -----

  const START := Now(EMPTY, map[], IDLE, map[])
  const CREATED := Now(S0, map[], IDLE, map[])
  const PROVISIONED := Now(S1, map[V := D0], IDLE, map[])
  const REQUESTED := Now(S2, map[V := D0], IDLE, map[])
  const JOINED := Now(S3, map[V := D1], IDLE, map[])
  const ACQUIRING := Now(S3, map[V := D1], Agent(map[], map[], Acquiring(PROOF, PATH)), map[])
  const RECORDING := Now(S4, map[V := D1], Agent(map[], map[], Recording(V, STAGE)), map[])
  const MOUNTING := Now(S4, map[V := D1], Agent(J0, map[], Mounting(V)), map[])
  const FORMATTING := Now(S4, map[V := D1], Agent(J0, map[], Formatting(V)), map[])
  const PLACING := Now(S4, map[V := D1], Agent(J0, map[], Placing(V)), MKFS)
  const MARKING := Now(S4, map[V := D1], Agent(J0, map[PATH := MOUNT], Marking(V)), MKFS)
  const FINISHING := Now(S5, map[V := D1], Agent(J0, map[PATH := MOUNT], Finishing(V)), MKFS)
  const STAGED := Now(S5, map[V := D1], Agent(J1, map[PATH := MOUNT], Idle(OK)), MKFS)

  const MAKE := ApiCall(CONTROLLER, CreateVolume, CREATE, V)
  const JOIN := ApiCall(CONTROLLER, CreateAttachment, ATTACH, A)

  lemma Ids()
    ensures ValidID(V) && ValidID(A) && ValidID("u") && ValidID("n") && V != A
  {
    assert V[0] == 'v' && A[0] == 'a' && "u"[0] == 'u' && "n"[0] == 'n';
  }

  lemma Creates()
    ensures Step(START, MAKE) == CREATED
  {
    Ids();
    assert "z" in CFG.zones["r"];
    assert S0 == Platform(map[][V := V0], map[]);
  }

  lemma Provisions()
    ensures Step(Step(Step(CREATED, Open), VolumeTurn(V, NO_FAULTS)), Commit) == PROVISIONED
  {
    var y := Step(CREATED, Open);
    assert !Busy(S0, V);
    assert StepVolume(View(S0, map[]), V, NO_FAULTS) == View(S1, map[V := D0]);
    assert {V} - {V} == {} && S0.volumes.Keys == {V} && S0.attachments.Keys == {};
  }

  lemma Requests()
    ensures Step(PROVISIONED, JOIN) == REQUESTED
  {
    Ids();
    assert !Busy(S1, V);
    assert NewIncarnation(S1, V, I, A) == S2;
  }

  lemma AttachItems()
    ensures StepVolume(View(S2, map[V := D0]), V, NO_FAULTS) == View(S2, map[V := D0])
    ensures StepAttachment(CFG, View(S2, map[V := D0]), A, NO_FAULTS) == View(S3, map[V := D1])
  {
  }

  lemma Attaches()
    ensures Step(Step(Step(Step(REQUESTED, Open), VolumeTurn(V, NO_FAULTS)), AttachmentTurn(A, NO_FAULTS)), Commit)
        == JOINED
  {
    hide StepVolume, StepAttachment;
    AttachItems();
    assert S2.volumes.Keys == {V} && S2.attachments.Keys == {A} && {V} - {V} == {} && {A} - {A} == {};
  }

  lemma Starts()
    ensures Step(JOINED, NodeStarts(I, StageVolume(REQUEST))) == ACQUIRING
  {
    Ids();
    ContextReadsBack(A1);
    hide ContextOf, ProofOf;
  }

  lemma Acquires()
    ensures Step(ACQUIRING, NodeCalls(I, Fine)) == RECORDING
  {
    Ids();
    assert {} + {"u"} == {"u"};
  }

  lemma RecordsAndProbes()
    ensures Step(RECORDING, NodeSaves(I, Fine)) == MOUNTING
    ensures Step(MOUNTING, NodeHosts(I, Fine)) == FORMATTING
  {
  }

  lemma FormatsAndMounts()
    ensures Step(FORMATTING, NodeHosts(I, Fine)) == PLACING
    ensures Step(PLACING, NodeHosts(I, Fine)) == MARKING
  {
  }

  /** The platform accepts that the volume is initialized. */
  lemma Accepts()
    ensures NodeApply(CFG, I, (MarkInitialized, PROOF), S4) == Applied(Done(Some(V3), Some(A2), None), S5)
  {
    Ids();
  }

  lemma Reports()
    ensures Step(MARKING, NodeCalls(I, Fine)) == FINISHING
    ensures Initializes(MARKING, NodeCalls(I, Fine), V)
  {
    hide NodeApply;
    Accepts();
  }

  lemma Finishes()
    ensures Step(FINISHING, NodeSaves(I, Fine)) == STAGED
  {
    var n := FINISHING.nodes[I];
    assert Draft(n) == J0[V := STAGE.(volume := V3, ready := true)];
    assert J0[V := STAGE.(volume := V3, ready := true)] == J1;
    assert FINISHING.nodes[I := STAGED.nodes[I]] == STAGED.nodes;
  }

  const TO_FORMATTING := [MAKE, Open, VolumeTurn(V, NO_FAULTS), Commit, JOIN, Open, VolumeTurn(V, NO_FAULTS),
                          AttachmentTurn(A, NO_FAULTS), Commit, NodeStarts(I, StageVolume(REQUEST)), NodeCalls(I, Fine),
                          NodeSaves(I, Fine), NodeHosts(I, Fine)]
  const TO_MARKING := [NodeHosts(I, Fine), NodeHosts(I, Fine)]
  const TO_STAGED := [NodeCalls(I, Fine), NodeSaves(I, Fine)]

  lemma {:induction false} RunThen(y: System, es: seq<Event>, fs: seq<Event>)
    ensures Run(y, es + fs) == Run(Run(y, es), fs)
    decreases |es|
  {
    hide Step;
    if es == [] {
      assert es + fs == fs;
    } else {
      assert (es + fs)[1..] == es[1..] + fs;
      RunThen(Step(y, es[0]), es[1..], fs);
    }
  }

  lemma FirstThen(y: System, e: Event, es: seq<Event>)
    ensures Run(y, [e] + es) == Run(Step(y, e), es)
  {
    hide Step;
    assert ([e] + es)[1..] == es;
  }

  lemma Pair(y: System, a: Event, b: Event)
    ensures Run(y, [a, b]) == Step(Step(y, a), b)
  {
    hide Step;
    FirstThen(y, a, [b]);
    FirstThen(Step(y, a), b, []);
    assert [a] + [b] == [a, b] && [b] + [] == [b];
  }

  lemma Joins()
    ensures Run(START, TO_FORMATTING[..9]) == JOINED
  {
    hide Step, Run;
    Creates(); Provisions(); Requests(); Attaches();
    var t := TO_FORMATTING[..9];
    var y2 := Step(CREATED, Open);
    var y6 := Step(REQUESTED, Open);
    var y8 := Step(Step(y6, t[6]), t[7]);
    Pair(START, t[0], t[1]); Pair(y2, t[2], t[3]); Pair(PROVISIONED, t[4], t[5]); Pair(y6, t[6], t[7]);
    FirstThen(y8, t[8], []);
    RunNothing(JOINED);
    RunThen(START, [t[0], t[1]], t[2..]);
    RunThen(y2, [t[2], t[3]], t[4..]);
    RunThen(PROVISIONED, [t[4], t[5]], t[6..]);
    RunThen(y6, [t[6], t[7]], t[8..]);
    assert t == [t[0], t[1]] + t[2..] && t[2..] == [t[2], t[3]] + t[4..] && t[4..] == [t[4], t[5]] + t[6..];
    assert t[6..] == [t[6], t[7]] + t[8..] && t[8..] == [t[8]] + [];
  }

  lemma ReachesFormatting()
    ensures Run(START, TO_FORMATTING) == FORMATTING
  {
    hide Step, Run;
    Joins(); Starts(); Acquires(); RecordsAndProbes();
    var t := TO_FORMATTING;
    Pair(JOINED, t[9], t[10]);
    Pair(RECORDING, t[11], t[12]);
    RunThen(START, t[..9], t[9..]);
    RunThen(JOINED, [t[9], t[10]], [t[11], t[12]]);
    assert t == t[..9] + t[9..] && t[9..] == [t[9], t[10]] + [t[11], t[12]];
  }

  lemma RunNothing(y: System)
    ensures Run(y, []) == y
  {
  }

  /** From empty stores: the volume is created, provisioned, attached, formatted, mounted and reported, each step
      taken by the system itself; on the way a node stands before mkfs, and before the report that withdraws the leave
      to format. */
  lemma WholeLife()
    ensures Init(START)
    ensures Run(START, TO_FORMATTING) == FORMATTING && Formats(FORMATTING, TO_MARKING[0], V)
    ensures Run(FORMATTING, TO_MARKING) == MARKING && Initializes(MARKING, TO_STAGED[0], V)
    ensures Run(MARKING, TO_STAGED) == STAGED
    ensures Run(START, TO_FORMATTING + TO_MARKING + TO_STAGED) == STAGED
    ensures MountsVolume(STAGED.nodes[I].mounts, V) && CloudAttachedTo(STAGED, V, I) && STAGED.nodes[I].pc == Idle(OK)
  {
    hide Run, Step, Initializes;
    ReachesFormatting(); FormatsAndMounts(); Reports(); Finishes();
    Pair(FORMATTING, TO_MARKING[0], TO_MARKING[1]);
    Pair(MARKING, TO_STAGED[0], TO_STAGED[1]);
    RunThen(START, TO_FORMATTING, TO_MARKING);
    RunThen(START, TO_FORMATTING + TO_MARKING, TO_STAGED);
    assert STAGED.nodes[I].mounts[PATH].volume == V;
  }
}
