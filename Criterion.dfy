/** The argument plan of a generated criterion (loss) function: the optional
    weight, the scratch buffers and the configuration values, spliced into the
    kernel call after (input, target, output). */
module Criterion {
  import opened Common
  import opened Splice
  import opened Slots

  const ThTensor: string := "THTensor*"

  /** A criterion buffer: a plain tensor argument whose name does not start with "weight". */
  predicate IsCriterionBuffer(a: Argument) {
    !StartsWith(a.name, "weight") && a.typ == ThTensor
  }

  lemma {:induction false} ThTensorIsTensor(a: Argument)
    requires a.typ == ThTensor
    ensures IsTensor(a)
  {
    assert StartsWith("Tensor*", "Tensor");
    assert a.typ[1..] == "HTensor*" && a.typ[1..][1..] == "Tensor*";
  }

  /** The index of the first argument whose name starts with "weight", or -1. */
  function FirstWeight(args: seq<Argument>): (r: int)
    ensures -1 <= r < |args|
  {
    if args == [] then -1
    else
      var w := FirstWeight(args[..|args| - 1]);
      if w >= 0 then w
      else if StartsWith(args[|args| - 1].name, "weight") then |args| - 1
      else -1
  }

  /** FirstWeight finds the first "weight..." argument, and -1 means there is none. */
  lemma {:induction false} FirstWeightIsFirst(args: seq<Argument>)
    ensures FirstWeight(args) == -1 <==> forall j :: 0 <= j < |args| ==> !StartsWith(args[j].name, "weight")
    ensures FirstWeight(args) >= 0 ==>
      StartsWith(args[FirstWeight(args)].name, "weight") &&
      forall j :: 0 <= j < FirstWeight(args) ==> !StartsWith(args[j].name, "weight")
  {
    if args != [] {
      var init := args[..|args| - 1];
      FirstWeightIsFirst(init);
      assert forall j :: 0 <= j < |init| ==> init[j] == args[j];
    }
  }

  /** The `for i, arg in enumerate(update_output.arguments)` search with `break`. */
  method FindWeightIndex(args: seq<Argument>) returns (idx: int)
    ensures idx == FirstWeight(args)
    ensures idx == -1 <==> forall j :: 0 <= j < |args| ==> !StartsWith(args[j].name, "weight")
    ensures idx >= 0 ==> StartsWith(args[idx].name, "weight")
    ensures idx >= 0 ==> forall j :: 0 <= j < idx ==> !StartsWith(args[j].name, "weight")
  {
    idx := -1;
    var i := 0;
    while i < |args|
      invariant 0 <= i <= |args|
      invariant idx == -1 ==> FirstWeight(args[..i]) == -1
      invariant idx >= 0 ==> idx == FirstWeight(args)
      invariant idx >= 0 ==> i < |args|
    {
      if StartsWith(args[i].name, "weight") {
        idx := i;
        FirstWeightOfPrefix(args, i);
        break;
      }
      assert args[..i + 1][..i] == args[..i];
      i := i + 1;
    }
    if idx == -1 {
      assert args[..i] == args;
    }
    FirstWeightIsFirst(args);
  }

  /** When no argument before `i` starts with "weight" but the one at `i` does, `i` is the first. */
  lemma {:induction false} FirstWeightOfPrefix(args: seq<Argument>, i: nat)
    requires i < |args| && FirstWeight(args[..i]) == -1 && StartsWith(args[i].name, "weight")
    ensures FirstWeight(args) == i
  {
    FirstWeightIsFirst(args[..i]);
    FirstWeightIsFirst(args);
    assert forall j :: 0 <= j < i ==> args[..i][j] == args[j];
  }

  /** The positions within `args` of the criterion buffers. */
  function BufferPositions(args: seq<Argument>): (r: seq<nat>)
    ensures |r| <= |args|
  {
    if args == [] then []
    else
      var init := BufferPositions(args[..|args| - 1]);
      if IsCriterionBuffer(args[|args| - 1]) then init + [|args| - 1] else init
  }

  /** BufferPositions lists exactly the buffers, in increasing order. */
  lemma {:induction false} BufferPositionsExact(args: seq<Argument>)
    ensures forall k, l :: 0 <= k < l < |BufferPositions(args)| ==> BufferPositions(args)[k] < BufferPositions(args)[l]
    ensures forall j :: j in BufferPositions(args) <==> 0 <= j < |args| && IsCriterionBuffer(args[j])
  {
    if args != [] {
      var init := args[..|args| - 1];
      BufferPositionsExact(init);
      assert forall j :: 0 <= j < |init| ==> init[j] == args[j];
      forall k | 0 <= k < |BufferPositions(init)| ensures BufferPositions(init)[k] < |init| {
        assert BufferPositions(init)[k] in BufferPositions(init);
      }
    }
  }

  /** The counter loop over `update_output.arguments[4:]` that collects the buffer indices. */
  method CriterionBufferIndices(args: seq<Argument>) returns (idxs: seq<nat>)
    ensures idxs == BufferPositions(Drop(args, 4))
  {
    var rest := Drop(args, 4);
    idxs := [];
    var counter := 0;
    for i := 0 to |rest|
      invariant counter == i
      invariant idxs == BufferPositions(rest[..i])
    {
      var arg := rest[i];
      assert rest[..i + 1][..i] == rest[..i];
      if !StartsWith(arg.name, "weight") && arg.typ == ThTensor {
        idxs := idxs + [counter];
      }
      counter := counter + 1;
    }
    assert rest[..|rest|] == rest;
  }

  /** The insertion of `&mut weight` at `weight_arg_idx - 4`, present only when a weight exists. */
  function WeightItems(w: int): seq<(int, Slot)> {
    if w >= 0 then [(w - 4, WeightSlot)] else []
  }

  /** The insertions of `&mut self.saved_tensors[k]` at the k-th buffer index. */
  function BufferItems(idxs: seq<nat>): (r: seq<(int, Slot)>)
    ensures |r| == |idxs|
  {
    if idxs == [] then []
    else BufferItems(idxs[..|idxs| - 1]) + [(idxs[|idxs| - 1], SavedBuffer(|idxs| - 1))]
  }

  /** The `additional_args` list the generator passes after (input, target, output/grad_input). */
  function CriterionSlots(args: seq<Argument>): seq<Slot> {
    var full := Drop(args, 4);
    InsertAll(InsertAll(ConfigSlots(full), WeightItems(FirstWeight(args))), BufferItems(BufferPositions(full)))
  }

  /** What `_make_function_class_criterion` derives for one criterion family. */
  datatype CriterionClass = CriterionClass(
    className: string,
    updateOutput: string,
    updateGradInput: string,
    configArgs: seq<Argument>,     // fields of the generated <Name>Args struct
    needsArgs: bool,               // impl_func_args! rather than impl_func!
    hasWeight: bool,               // the forward and backward bodies derive `weight` from input_list[2]
    bufferCount: nat,              // one input.new(1) pushed onto saved_tensors per buffer
    callSlots: seq<Slot>,          // trailing arguments of both backend calls
    backwardResult: seq<string>)   // the emitted backward result list

  method MakeCriterionClass(className: string, updateOutput: FunctionDescriptor,
                            updateGradInput: FunctionDescriptor,
                            accGradParameters: Option<FunctionDescriptor>) returns (c: CriterionClass)
    ensures CriterionClassOf(className, updateOutput, updateGradInput, c)
  {
    var args := updateOutput.arguments;
    var weightArgIdx := FindWeightIndex(args);
    var buffersIdx := CriterionBufferIndices(args);
    var full := Drop(args, 4);
    var additional := ConfigSlots(full);
    if weightArgIdx >= 0 {
      additional := PyInsert(additional, weightArgIdx - 4, WeightSlot);
    }
    assert additional == InsertAll(ConfigSlots(full), WeightItems(weightArgIdx));
    additional := InsertBuffers(additional, buffersIdx);
    if weightArgIdx >= 0 {
      assert StartsWith(args[weightArgIdx].name, "weight");
    }
    var configArgs := NonTensorArgs(full);
    c := CriterionClass(className, updateOutput.name, updateGradInput.name, configArgs,
                        |configArgs| > 0, weightArgIdx >= 0, |buffersIdx|, additional,
                        ["Some(grad_input)", "None"]);
  }

  /** The class derived for a criterion family: the accGradParameters kernel plays no part. */
  predicate CriterionClassOf(className: string, updateOutput: FunctionDescriptor,
                             updateGradInput: FunctionDescriptor, c: CriterionClass)
  {
    var args := updateOutput.arguments;
    && c.className == className && c.updateOutput == updateOutput.name && c.updateGradInput == updateGradInput.name
    && c.configArgs == NonTensorArgs(Drop(args, 4))
    && (c.needsArgs <==> |c.configArgs| > 0)
    && (c.hasWeight <==> exists j :: 0 <= j < |args| && StartsWith(args[j].name, "weight"))
    && c.bufferCount == |BufferPositions(Drop(args, 4))|
    && c.callSlots == CriterionSlots(args)
    && c.backwardResult == ["Some(grad_input)", "None"]
  }

  /** The loop `for i, idx in enumerate(buffers_idx): additional_args.insert(idx, ...)`. */
  method InsertBuffers(s: seq<Slot>, idxs: seq<nat>) returns (r: seq<Slot>)
    ensures r == InsertAll(s, BufferItems(idxs))
  {
    r := s;
    for i := 0 to |idxs|
      invariant r == InsertAll(s, BufferItems(idxs[..i]))
    {
      assert idxs[..i + 1][..i] == idxs[..i];
      r := PyInsert(r, idxs[i], SavedBuffer(i));
    }
    assert idxs[..|idxs|] == idxs;
  }

  const TargetCloneArg: string := "&mut input_list[1].clone()"
  const TargetArg: string := "&mut target"

  /** The emitted forward kernel call line: input, target and output, then the
      plan, as one comma-separated list; with an empty plan the source leaves
      a trailing comma before the parenthesis. */
  function ForwardCall(c: CriterionClass): (r: string)
    ensures |c.callSlots| > 0 ==>
      r == "\t\tbackend." + c.updateOutput + "(" + Join([InputArg, TargetCloneArg, OutputArg] + RenderEach(c.callSlots), Sep) + ");\n"
    ensures c.callSlots == [] ==>
      r == "\t\tbackend." + c.updateOutput + "(" + (Join([InputArg, TargetCloneArg, OutputArg], Sep) + Sep) + ");\n"
  {
    LeadingThreeJoin(InputArg, TargetCloneArg, OutputArg, RenderEach(c.callSlots));
    var args := InputArg + Sep + TargetCloneArg + Sep + OutputArg + Sep + RenderAll(c.callSlots);
    "\t\tbackend." + c.updateOutput + "(" + args + ");\n"
  }

  /** The emitted backward kernel call line: input, target and grad_input, then
      the same plan; the same trailing comma with an empty plan. */
  function BackwardCall(c: CriterionClass): (r: string)
    ensures |c.callSlots| > 0 ==>
      r == "\t\tbackend." + c.updateGradInput + "(" + Join([InputArg, TargetArg, GradInputArg] + RenderEach(c.callSlots), Sep) + ");\n"
    ensures c.callSlots == [] ==>
      r == "\t\tbackend." + c.updateGradInput + "(" + (Join([InputArg, TargetArg, GradInputArg], Sep) + Sep) + ");\n"
  {
    LeadingThreeJoin(InputArg, TargetArg, GradInputArg, RenderEach(c.callSlots));
    var args := InputArg + Sep + TargetArg + Sep + GradInputArg + Sep + RenderAll(c.callSlots);
    "\t\tbackend." + c.updateGradInput + "(" + args + ");\n"
  }

  /** The native order of the trailing arguments `full`, with weight position `wpos`. */
  function CriterionNative(full: seq<Argument>, wpos: int): (r: seq<Slot>)
    ensures |r| == |full|
  {
    if full == [] then []
    else
      var init := full[..|full| - 1];
      var last := full[|full| - 1];
      CriterionNative(init, wpos) +
        [if |init| == wpos then WeightSlot
         else if IsCriterionBuffer(last) then SavedBuffer(|BufferPositions(init)|)
         else ConfigArg(last.name)]
  }

  lemma {:induction false} NoBufferPositions(full: seq<Argument>)
    requires forall j :: 0 <= j < |full| ==> !IsCriterionBuffer(full[j])
    ensures BufferPositions(full) == []
  {
    if full != [] {
      NoBufferPositions(full[..|full| - 1]);
    }
  }

  /** When every tensor argument other than the weight is a buffer, the native
      order splits into the config slots and the weight-then-buffer insertions. */
  lemma {:induction false} CriterionNativeSplit(full: seq<Argument>, wpos: int)
    requires forall j :: 0 <= j < |full| && j != wpos && IsTensor(full[j]) ==> IsCriterionBuffer(full[j])
    requires 0 <= wpos < |full| ==> IsTensor(full[wpos]) && !IsCriterionBuffer(full[wpos])
    requires forall j :: 0 <= j < |full| && j < wpos ==> !IsCriterionBuffer(full[j])
    ensures Unmarked(CriterionNative(full, wpos), Spliced) == ConfigSlots(full)
    ensures MarkedItems(CriterionNative(full, wpos), Spliced) ==
      (if 0 <= wpos < |full| then [(wpos, WeightSlot)] else []) + BufferItems(BufferPositions(full))
  {
    if full != [] {
      var init := full[..|full| - 1];
      var last := full[|full| - 1];
      assert forall j :: 0 <= j < |init| ==> init[j] == full[j];
      CriterionNativeSplit(init, wpos);
      var w := if 0 <= wpos < |init| then [(wpos, WeightSlot)] else [];
      if |init| == wpos {
        NoBufferPositions(init);
        CriterionNativeWeightStep(full, wpos);
      } else if IsCriterionBuffer(last) {
        CriterionNativeBufferStep(full, wpos, w);
      } else {
        CriterionNativeConfigStep(full, wpos, w);
      }
    }
  }

  /** CriterionNativeSplit for a list ending in the weight, given it for the rest. */
  lemma {:induction false} CriterionNativeWeightStep(full: seq<Argument>, wpos: int)
    requires |full| > 0 && wpos == |full| - 1
    requires IsTensor(full[wpos]) && !IsCriterionBuffer(full[wpos])
    requires BufferPositions(full[..wpos]) == []
    requires Unmarked(CriterionNative(full[..wpos], wpos), Spliced) == ConfigSlots(full[..wpos])
    requires MarkedItems(CriterionNative(full[..wpos], wpos), Spliced) == []
    ensures Unmarked(CriterionNative(full, wpos), Spliced) == ConfigSlots(full)
    ensures MarkedItems(CriterionNative(full, wpos), Spliced) == [(wpos, WeightSlot)] + BufferItems(BufferPositions(full))
  {
    var init := full[..wpos];
    var f := CriterionNative(full, wpos);
    assert f[..|f| - 1] == CriterionNative(init, wpos);
    assert BufferPositions(full) == BufferPositions(init);
  }

  /** CriterionNativeSplit for a list ending in a buffer, given it for the rest. */
  lemma {:induction false} CriterionNativeBufferStep(full: seq<Argument>, wpos: int, w: seq<(int, Slot)>)
    requires |full| > 0 && wpos != |full| - 1 && IsCriterionBuffer(full[|full| - 1])
    requires Unmarked(CriterionNative(full[..|full| - 1], wpos), Spliced) == ConfigSlots(full[..|full| - 1])
    requires MarkedItems(CriterionNative(full[..|full| - 1], wpos), Spliced) == w + BufferItems(BufferPositions(full[..|full| - 1]))
    ensures Unmarked(CriterionNative(full, wpos), Spliced) == ConfigSlots(full)
    ensures MarkedItems(CriterionNative(full, wpos), Spliced) == w + BufferItems(BufferPositions(full))
  {
    var init := full[..|full| - 1];
    ThTensorIsTensor(full[|full| - 1]);
    var f := CriterionNative(full, wpos);
    assert f[..|f| - 1] == CriterionNative(init, wpos);
    var bp := BufferPositions(full);
    assert bp[..|bp| - 1] == BufferPositions(init);
  }

  /** CriterionNativeSplit for a list ending in a configuration value, given it for the rest. */
  lemma {:induction false} CriterionNativeConfigStep(full: seq<Argument>, wpos: int, w: seq<(int, Slot)>)
    requires |full| > 0 && wpos != |full| - 1 && !IsTensor(full[|full| - 1])
    requires Unmarked(CriterionNative(full[..|full| - 1], wpos), Spliced) == ConfigSlots(full[..|full| - 1])
    requires MarkedItems(CriterionNative(full[..|full| - 1], wpos), Spliced) == w + BufferItems(BufferPositions(full[..|full| - 1]))
    ensures Unmarked(CriterionNative(full, wpos), Spliced) == ConfigSlots(full)
    ensures MarkedItems(CriterionNative(full, wpos), Spliced) == w + BufferItems(BufferPositions(full))
  {
    var init := full[..|full| - 1];
    var f := CriterionNative(full, wpos);
    assert f[..|f| - 1] == CriterionNative(init, wpos);
    assert !IsCriterionBuffer(full[|full| - 1]);
  }

  /** Inserting `a` and then `b` is inserting `a + b`. */
  lemma {:induction false} InsertAllAppend<T>(s: seq<T>, a: seq<(int, T)>, b: seq<(int, T)>)
    ensures InsertAll(InsertAll(s, a), b) == InsertAll(s, a + b)
  {
    if b == [] {
      assert a + b == a;
    } else {
      InsertAllAppend(s, a, b[..|b| - 1]);
      assert (a + b)[..|a + b| - 1] == a + b[..|b| - 1];
    }
  }

  /** The criterion plan is the kernel's native argument order when the weight
      (if any) lies past the first four arguments, precedes every buffer, and
      every other tensor argument is a buffer. */
  lemma {:induction false} CriterionPlanNativeOrder(args: seq<Argument>)
    requires FirstWeight(args) == -1 || FirstWeight(args) >= 4
    requires FirstWeight(args) >= 4 ==> IsTensor(args[FirstWeight(args)])
    requires forall j :: 4 <= j < |args| && j < FirstWeight(args) ==> !IsCriterionBuffer(args[j])
    requires forall j :: 4 <= j < |args| && j != FirstWeight(args) && IsTensor(args[j]) ==> IsCriterionBuffer(args[j])
    ensures CriterionSlots(args) ==
      CriterionNative(Drop(args, 4), if FirstWeight(args) >= 0 then FirstWeight(args) - 4 else -1)
  {
    var w := FirstWeight(args);
    var full := Drop(args, 4);
    var wpos := if w >= 0 then w - 4 else -1;
    CriterionSplitReady(args, full, wpos);
    CriterionNativeSplit(full, wpos);
    InsertAllAppend(ConfigSlots(full), WeightItems(w), BufferItems(BufferPositions(full)));
    RestoreOrder(CriterionNative(full, wpos), Spliced);
  }

  /** The conditions of CriterionPlanNativeOrder, restated on the trailing arguments. */
  lemma {:induction false} CriterionSplitReady(args: seq<Argument>, full: seq<Argument>, wpos: int)
    requires FirstWeight(args) == -1 || FirstWeight(args) >= 4
    requires FirstWeight(args) >= 4 ==> IsTensor(args[FirstWeight(args)])
    requires forall j :: 4 <= j < |args| && j < FirstWeight(args) ==> !IsCriterionBuffer(args[j])
    requires forall j :: 4 <= j < |args| && j != FirstWeight(args) && IsTensor(args[j]) ==> IsCriterionBuffer(args[j])
    requires full == Drop(args, 4) && wpos == if FirstWeight(args) >= 0 then FirstWeight(args) - 4 else -1
    ensures forall j :: 0 <= j < |full| && j != wpos && IsTensor(full[j]) ==> IsCriterionBuffer(full[j])
    ensures 0 <= wpos < |full| ==> IsTensor(full[wpos]) && !IsCriterionBuffer(full[wpos])
    ensures forall j :: 0 <= j < |full| && j < wpos ==> !IsCriterionBuffer(full[j])
    ensures WeightItems(FirstWeight(args)) == if 0 <= wpos < |full| then [(wpos, WeightSlot)] else []
  {
    FirstWeightIsFirst(args);
    assert forall j :: 0 <= j < |full| ==> full[j] == args[j + 4];
  }

  /** A buffer before the weight together with a configuration value after it
      leaves native order: the weight is inserted at its index among the
      trailing arguments counted in a list that does not yet hold the buffer,
      so the configuration value ends up in front of the weight. */
  lemma {:induction false} CriterionBufferBeforeWeight(head: seq<Argument>, b: Argument, w: Argument, c: Argument)
    requires |head| == 4 && forall j :: 0 <= j < 4 ==> !StartsWith(head[j].name, "weight")
    requires IsCriterionBuffer(b)
    requires StartsWith(w.name, "weight") && w.typ == ThTensor
    requires !IsTensor(c)
    ensures CriterionSlots(head + [b, w, c]) == [SavedBuffer(0), ConfigArg(c.name), WeightSlot]
    ensures CriterionNative([b, w, c], 1) == [SavedBuffer(0), WeightSlot, ConfigArg(c.name)]
  {
    var args := head + [b, w, c];
    var full := Drop(args, 4);
    assert full == [b, w, c];
    WeightAtFive(head, b, w, c);
    ThTensorIsTensor(w);
    ThreeArgPlan(b, w, c);
    var cs := [ConfigArg(c.name)];
    assert WeightItems(5) == [(1, WeightSlot)];
    assert InsertAll(cs, [(1, WeightSlot)]) == PyInsert(cs, 1, WeightSlot) == [ConfigArg(c.name), WeightSlot];
    assert BufferItems([0]) == [(0, SavedBuffer(0))];
    assert InsertAll([ConfigArg(c.name), WeightSlot], [(0, SavedBuffer(0))]) == [SavedBuffer(0), ConfigArg(c.name), WeightSlot];
  }

  /** With no configuration value after the weight, a buffer before it is
      still passed in native order: buffer first, then the weight. */
  lemma {:induction false} CriterionBufferThenWeight(head: seq<Argument>, b: Argument, w: Argument)
    requires |head| == 4 && forall j :: 0 <= j < 4 ==> !StartsWith(head[j].name, "weight")
    requires IsCriterionBuffer(b)
    requires StartsWith(w.name, "weight") && w.typ == ThTensor
    ensures CriterionSlots(head + [b, w]) == [SavedBuffer(0), WeightSlot]
    ensures CriterionNative([b, w], 1) == [SavedBuffer(0), WeightSlot]
  {
    var args := head + [b, w];
    assert Drop(args, 4) == [b, w];
    WeightAtFiveOfTwo(head, b, w);
    TwoArgPlan(b, w);
    var empty: seq<Slot> := [];
    assert WeightItems(FirstWeight(args)) == [(1, WeightSlot)];
    assert InsertAll(empty, [(1, WeightSlot)]) == [WeightSlot] by {
      assert [(1, WeightSlot)][..0] == [];
      assert PyInsert(empty, 1, WeightSlot) == [WeightSlot];
    }
    assert BufferItems(BufferPositions(Drop(args, 4))) == [(0, SavedBuffer(0))];
    assert InsertAll([WeightSlot], [(0, SavedBuffer(0))]) == [SavedBuffer(0), WeightSlot] by {
      assert [(0, SavedBuffer(0))][..0] == [];
      assert PyInsert([WeightSlot], 0, SavedBuffer(0)) == [SavedBuffer(0), WeightSlot];
    }
  }

  lemma {:induction false} WeightAtFiveOfTwo(head: seq<Argument>, b: Argument, w: Argument)
    requires |head| == 4 && forall j :: 0 <= j < 4 ==> !StartsWith(head[j].name, "weight")
    requires IsCriterionBuffer(b)
    requires StartsWith(w.name, "weight")
    ensures FirstWeight(head + [b, w]) == 5
  {
    var args := head + [b, w];
    assert forall j :: 0 <= j < 4 ==> args[j] == head[j];
    assert args[4] == b && args[5] == w;
    FirstWeightIsFirst(args);
  }

  lemma {:induction false} TwoArgPlan(b: Argument, w: Argument)
    requires IsCriterionBuffer(b)
    requires StartsWith(w.name, "weight") && w.typ == ThTensor
    ensures ConfigSlots([b, w]) == []
    ensures BufferPositions([b, w]) == [0]
    ensures CriterionNative([b, w], 1) == [SavedBuffer(0), WeightSlot]
  {
    ThTensorIsTensor(b);
    ThTensorIsTensor(w);
    assert [b, w][..1] == [b];
    ConfigSlotsOfTensors([b, w]);
    assert !IsCriterionBuffer(w);
    assert BufferPositions([b]) == [0];
    assert CriterionNative([b], 1) == [SavedBuffer(0)];
  }

  lemma {:induction false} WeightAtFive(head: seq<Argument>, b: Argument, w: Argument, c: Argument)
    requires |head| == 4 && forall j :: 0 <= j < 4 ==> !StartsWith(head[j].name, "weight")
    requires IsCriterionBuffer(b)
    requires StartsWith(w.name, "weight")
    ensures FirstWeight(head + [b, w, c]) == 5
  {
    var args := head + [b, w, c];
    assert forall j :: 0 <= j < 4 ==> args[j] == head[j];
    assert args[4] == b && args[5] == w;
    FirstWeightIsFirst(args);
  }

  lemma {:induction false} ThreeArgPlan(b: Argument, w: Argument, c: Argument)
    requires IsCriterionBuffer(b) && IsTensor(b)
    requires StartsWith(w.name, "weight") && IsTensor(w)
    requires !IsTensor(c)
    ensures ConfigSlots([b, w, c]) == [ConfigArg(c.name)]
    ensures BufferPositions([b, w, c]) == [0]
    ensures CriterionNative([b, w, c], 1) == [SavedBuffer(0), WeightSlot, ConfigArg(c.name)]
  {
    var full := [b, w, c];
    assert full[..2] == [b, w] && full[..1] == [b] && [b, w][..1] == [b];
    assert !IsCriterionBuffer(w);
    if c.typ == ThTensor {
      ThTensorIsTensor(c);
    }
    assert !IsCriterionBuffer(c);
    assert BufferPositions([b]) == [0];
    assert BufferPositions([b, w]) == [0];
    assert CriterionNative([b], 1) == [SavedBuffer(0)];
    assert CriterionNative([b, w], 1) == [SavedBuffer(0), WeightSlot];
  }
}
