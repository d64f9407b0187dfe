/** The argument plans of a generated autograd function for a non-criterion
    family: the forward call to `<Name>_updateOutput` and the grad-input call
    to `<Name>_updateGradInput`, plus the flags that shape the emitted bodies. */
module General {
  import opened Common
  import opened Splice
  import opened Slots

  /** `has_argument(fn, name)`: some argument carries that name. */
  function HasArgument(args: seq<Argument>, name: string): (r: bool)
    ensures r <==> exists j :: 0 <= j < |args| && args[j].name == name
  {
    if args == [] then false
    else
      var init := args[..|args| - 1];
      assert forall j :: 0 <= j < |init| ==> init[j] == args[j];
      HasArgument(init, name) || args[|args| - 1].name == name
  }

  /** The argument names `_find_buffers` skips without counting them. */
  const IgnoredArgs: set<string> := {"weight", "bias", "gradWeight", "gradBias", "output"}

  /** The arguments that `_find_buffers` counts: those not named in `ignored`. */
  function Kept(args: seq<Argument>, ignored: set<string>): (r: seq<Argument>)
    ensures |r| <= |args|
  {
    if args == [] then []
    else
      var init := Kept(args[..|args| - 1], ignored);
      var last := args[|args| - 1];
      if last.name in ignored then init else init + [last]
  }

  /** The `(idx, name)` pairs `_find_buffers` returns. */
  function Buffers(args: seq<Argument>, ignored: set<string>): seq<(nat, string)>
  {
    if args == [] then []
    else
      var init := args[..|args| - 1];
      var last := args[|args| - 1];
      if last.name in ignored || last.typ != "THTensor*" then Buffers(init, ignored)
      else Buffers(init, ignored) + [(|Kept(init, ignored)|, last.name)]
  }

  /** The `_find_buffers` loop, with `continue` for ignored names and a counter of the others. */
  method FindBuffers(args: seq<Argument>, ignored: set<string>) returns (buffers: seq<(nat, string)>)
    ensures buffers == Buffers(args, ignored)
  {
    var additionalArgIdx := 0;
    buffers := [];
    for i := 0 to |args|
      invariant additionalArgIdx == |Kept(args[..i], ignored)|
      invariant buffers == Buffers(args[..i], ignored)
    {
      var arg := args[i];
      assert args[..i + 1][..i] == args[..i];
      if arg.name in ignored {
        continue;
      }
      if arg.typ == "THTensor*" {
        buffers := buffers + [(additionalArgIdx, arg.name)];
      }
      additionalArgIdx := additionalArgIdx + 1;
    }
    assert args[..|args|] == args;
  }

  /** The buffer indices count kept arguments only: they increase strictly, each
      names a kept `THTensor*` argument, and every kept `THTensor*` argument is listed. */
  lemma {:induction false} BuffersWellFormed(args: seq<Argument>, ignored: set<string>)
    ensures forall k, l :: 0 <= k < l < |Buffers(args, ignored)| ==> Buffers(args, ignored)[k].0 < Buffers(args, ignored)[l].0
    ensures forall k :: 0 <= k < |Buffers(args, ignored)| ==>
              Buffers(args, ignored)[k].0 < |Kept(args, ignored)| &&
              Kept(args, ignored)[Buffers(args, ignored)[k].0].typ == "THTensor*" &&
              Kept(args, ignored)[Buffers(args, ignored)[k].0].name == Buffers(args, ignored)[k].1
    ensures forall j :: 0 <= j < |Kept(args, ignored)| && Kept(args, ignored)[j].typ == "THTensor*" ==>
              exists k :: 0 <= k < |Buffers(args, ignored)| && Buffers(args, ignored)[k].0 == j
  {
    if args != [] {
      var init := args[..|args| - 1];
      var last := args[|args| - 1];
      BuffersWellFormed(init, ignored);
      var ki := Kept(init, ignored);
      var bi := Buffers(init, ignored);
      var kept := Kept(args, ignored);
      var b := Buffers(args, ignored);
      assert forall j :: 0 <= j < |ki| ==> kept[j] == ki[j];
      if last.name in ignored || last.typ != "THTensor*" {
        assert b == bi;
        if last.name !in ignored {
          assert kept == ki + [last];
        }
      } else {
        assert b == bi + [(|ki|, last.name)];
        assert kept == ki + [last];
        forall j | 0 <= j < |kept| && kept[j].typ == "THTensor*"
          ensures exists k :: 0 <= k < |b| && b[k].0 == j
        {
          if j == |ki| {
            assert b[|bi|].0 == j;
          } else {
            var k :| 0 <= k < |bi| && bi[k].0 == j;
            assert b[k].0 == j;
          }
        }
      }
    }
  }

  /** A buffer names no ignored argument: the names come from kept arguments. */
  lemma {:induction false} BuffersNotIgnored(args: seq<Argument>, ignored: set<string>)
    ensures forall k :: 0 <= k < |Buffers(args, ignored)| ==> Buffers(args, ignored)[k].1 !in ignored
  {
    if args != [] {
      BuffersNotIgnored(args[..|args| - 1], ignored);
    }
  }

  /** What `_make_function_class` derives for one non-criterion family. */
  datatype GeneralClass = GeneralClass(
    className: string,
    updateOutput: string,
    updateGradInput: string,
    configArgs: seq<Argument>,        // fields of the generated <Name>Args struct
    needsArgs: bool,                  // impl_func_args! rather than impl_func!
    isInplace: bool,                  // forward reuses input_list[0] when self.args.inplace
    saveOutput: bool,                 // forward saves output; backward passes &mut output
    needsInput: bool,                 // backward passes &mut input first
    skipGradOutputUnwrap: bool,       // grad_output is taken without .unwrap()
    forwardSlots: seq<Slot>,          // trailing arguments of the forward call
    backwardSlots: seq<Slot>,         // trailing arguments of the grad-input call
    hasAccGradBranch: bool,           // the (empty) accGradParameters branch is emitted
    backwardResult: seq<string>,      // the emitted backward result list
    outputBuffers: seq<(nat, string)>,
    gradInputBuffers: seq<(nat, string)>,
    accGradBuffers: Option<seq<(nat, string)>>)

  /** Where the grad-input configuration values start: after `input` when the kernel takes it. */
  function ConfigStart(needsInput: bool): nat {
    if needsInput then 4 else 3
  }

  /** Where the grad-input tensor arguments are counted from: after `output` when it is saved. */
  function TensorStart(saveOutput: bool): nat {
    if saveOutput then 5 else 4
  }

  /** The number of the first saved tensor the grad-input call passes. */
  function SavedFirst(saveOutput: bool): nat {
    if saveOutput then 2 else 1
  }

  /** The grad-input plan as the generator builds it: config values of
      `arguments[start:]`, tensor slots counted from `arguments[ga_start:]`. */
  function BackwardPlan(ugi: seq<Argument>, needsInput: bool, saveOutput: bool): seq<Slot> {
    InsertAll(ConfigSlots(Drop(ugi, ConfigStart(needsInput))),
              TensorItems(TensorPositions(Drop(ugi, TensorStart(saveOutput))), true, SavedFirst(saveOutput)))
  }

  method MakeGeneralClass(className: string, updateOutput: FunctionDescriptor,
                          updateGradInput: FunctionDescriptor,
                          accGradParameters: Option<FunctionDescriptor>) returns (r: Result<GeneralClass>)
    ensures |updateOutput.arguments| == 0 ==> r == Err(IndexOutOfRange("update_output.arguments[-1]"))
    ensures |updateOutput.arguments| > 0 && |updateGradInput.arguments| < 3 ==>
              r == Err(IndexOutOfRange("update_grad_input.arguments[2]"))
    ensures r.Ok? <==> |updateOutput.arguments| > 0 && |updateGradInput.arguments| >= 3
    ensures r.Ok? ==> GeneralClassOf(className, updateOutput, updateGradInput, accGradParameters, r.value)
  {
    var uo := updateOutput.arguments;
    var ugi := updateGradInput.arguments;
    var saveOutput := HasArgument(ugi, "output");
    var needsInput := HasArgument(ugi, "input");
    var outputBuffers, gradInputBuffers, accGradBuffers := FindAllBuffers(uo, ugi, accGradParameters);
    var args, needsArgs := ConfigFields(uo, ugi, needsInput);
    var outputArgs, inputArgs := CallPlans(uo, ugi, needsInput, saveOutput);
    if |uo| == 0 {
      return Err(IndexOutOfRange("update_output.arguments[-1]"));
    }
    var isInplace := uo[|uo| - 1].name == "inplace";
    if |ugi| < 3 {
      return Err(IndexOutOfRange("update_grad_input.arguments[2]"));
    }
    var skipGradOutputUnwrap := ugi[2].isOptional;
    r := Ok(GeneralClass(className, updateOutput.name, updateGradInput.name, args, needsArgs,
                         isInplace, saveOutput, needsInput, skipGradOutputUnwrap, outputArgs, inputArgs,
                         accGradParameters.Some?, ["grad_input_result"],
                         outputBuffers, gradInputBuffers, accGradBuffers));
  }

  /** The three `_find_buffers` calls: `update_output.arguments[3:]`,
      `update_grad_input.arguments[4:]`, and `acc_grad_parameters.arguments[3:]` when present. */
  method FindAllBuffers(uo: seq<Argument>, ugi: seq<Argument>, accGradParameters: Option<FunctionDescriptor>)
    returns (outputBuffers: seq<(nat, string)>, gradInputBuffers: seq<(nat, string)>,
             accGradBuffers: Option<seq<(nat, string)>>)
    ensures outputBuffers == Buffers(Drop(uo, 3), IgnoredArgs)
    ensures gradInputBuffers == Buffers(Drop(ugi, 4), IgnoredArgs)
    ensures accGradParameters.Some? <==> accGradBuffers.Some?
    ensures accGradParameters.Some? ==> accGradBuffers.value == Buffers(Drop(accGradParameters.value.arguments, 3), IgnoredArgs)
  {
    outputBuffers := FindBuffers(Drop(uo, 3), IgnoredArgs);
    gradInputBuffers := FindBuffers(Drop(ugi, 4), IgnoredArgs);
    accGradBuffers := None;
    if accGradParameters.Some? {
      var b := FindBuffers(Drop(accGradParameters.value.arguments, 3), IgnoredArgs);
      accGradBuffers := Some(b);
    }
  }

  /** The fields of the generated Args struct: the forward's non-tensor
      arguments, replaced by the grad-input ones when those are more. */
  method ConfigFields(uo: seq<Argument>, ugi: seq<Argument>, needsInput: bool)
    returns (args: seq<Argument>, needsArgs: bool)
    ensures var outCfg := NonTensorArgs(Drop(uo, 3));
            var giCfg := NonTensorArgs(Drop(ugi, ConfigStart(needsInput)));
            && args == (if |giCfg| > |outCfg| then giCfg else outCfg)
            && (needsArgs <==> |outCfg| > 0 || |giCfg| > 0)
  {
    args := NonTensorArgs(Drop(uo, 3));
    var gradInputArgs := NonTensorArgs(Drop(ugi, ConfigStart(needsInput)));
    if |gradInputArgs| > |args| {
      args := gradInputArgs;
    }
    needsArgs := |args| > 0 || |gradInputArgs| > 0;
  }

  /** The forward and grad-input argument plans, built by the two splice loops. */
  method CallPlans(uo: seq<Argument>, ugi: seq<Argument>, needsInput: bool, saveOutput: bool)
    returns (outputArgs: seq<Slot>, inputArgs: seq<Slot>)
    ensures outputArgs == NativeSlots(Drop(uo, 3), false, 1)
    ensures inputArgs == BackwardPlan(ugi, needsInput, saveOutput)
  {
    var fullArgs := Drop(uo, 3);
    outputArgs := InsertTensors(ConfigSlots(fullArgs), TensorPositions(fullArgs), false, 1);
    TensorSpliceRestoresOrder(fullArgs, false, 1);
    inputArgs := InsertTensors(ConfigSlots(Drop(ugi, ConfigStart(needsInput))),
                               TensorPositions(Drop(ugi, TensorStart(saveOutput))), true, SavedFirst(saveOutput));
  }

  /** The class derived for a family whose descriptors index without error. */
  predicate GeneralClassOf(className: string, updateOutput: FunctionDescriptor,
                           updateGradInput: FunctionDescriptor,
                           accGradParameters: Option<FunctionDescriptor>, c: GeneralClass)
  {
    var uo := updateOutput.arguments;
    var ugi := updateGradInput.arguments;
    var outCfg := NonTensorArgs(Drop(uo, 3));
    var giCfg := NonTensorArgs(Drop(ugi, ConfigStart(c.needsInput)));
    && |uo| > 0 && |ugi| >= 3
    && c.className == className
    && c.updateOutput == updateOutput.name
    && c.updateGradInput == updateGradInput.name
    && (c.saveOutput <==> exists j :: 0 <= j < |ugi| && ugi[j].name == "output")
    && (c.needsInput <==> exists j :: 0 <= j < |ugi| && ugi[j].name == "input")
    && (c.isInplace <==> uo[|uo| - 1].name == "inplace")
    && c.skipGradOutputUnwrap == ugi[2].isOptional
    && c.configArgs == (if |giCfg| > |outCfg| then giCfg else outCfg)
    && (c.needsArgs <==> |outCfg| > 0 || |giCfg| > 0)
    && c.forwardSlots == NativeSlots(Drop(uo, 3), false, 1)
    && c.backwardSlots == BackwardPlan(ugi, c.needsInput, c.saveOutput)
    && (c.hasAccGradBranch <==> accGradParameters.Some?)
    && c.backwardResult == ["grad_input_result"]
    && c.outputBuffers == Buffers(Drop(uo, 3), IgnoredArgs)
    && c.gradInputBuffers == Buffers(Drop(ugi, 4), IgnoredArgs)
    && (accGradParameters.Some? <==> c.accGradBuffers.Some?)
    && (accGradParameters.Some? ==> c.accGradBuffers.value == Buffers(Drop(accGradParameters.value.arguments, 3), IgnoredArgs))
  }

  /** The grad-input plan is the kernel's native order over `arguments[ga_start:]`
      when the arguments between the config start and the tensor start are all
      tensors (gradInput, and output when it is saved). */
  lemma {:induction false} BackwardPlanNativeOrder(ugi: seq<Argument>, needsInput: bool, saveOutput: bool)
    requires forall j :: ConfigStart(needsInput) <= j < TensorStart(saveOutput) && j < |ugi| ==> IsTensor(ugi[j])
    ensures BackwardPlan(ugi, needsInput, saveOutput) == NativeSlots(Drop(ugi, TensorStart(saveOutput)), true, SavedFirst(saveOutput))
  {
    var s := ConfigStart(needsInput);
    var g := TensorStart(saveOutput);
    var tail := Drop(ugi, g);
    if s <= |ugi| {
      var mid := if g <= |ugi| then ugi[s..g] else ugi[s..];
      assert Drop(ugi, s) == mid + tail;
      ConfigSlotsOfTensors(mid);
      ConfigSlotsAppend(mid, tail);
      assert [] + ConfigSlots(tail) == ConfigSlots(tail);
    }
    TensorSpliceRestoresOrder(tail, true, SavedFirst(saveOutput));
  }

  /** The k-th tensor of the forward arguments is passed as `input_list[k + 1]`,
      inside `Some(...)` exactly when it is optional; every other argument as its config value. */
  lemma {:induction false} ForwardSlotAt(uo: seq<Argument>, j: nat)
    requires 3 + j < |uo|
    ensures NativeSlots(Drop(uo, 3), false, 1)[j] ==
      if IsTensor(uo[3 + j]) then InputTensor(1 + |TensorPositions(uo[3..3 + j])|, uo[3 + j].isOptional)
      else ConfigArg(uo[3 + j].name)
  {
    NativeSlotsAt(Drop(uo, 3), false, 1, j);
    assert Drop(uo, 3)[..j] == uo[3..3 + j];
  }

  /** The emitted forward kernel call line: input and output, then the forward
      plan, as one comma-separated list; with an empty plan the source leaves
      a trailing comma before the parenthesis. */
  function ForwardCall(c: GeneralClass): (r: string)
    ensures |c.forwardSlots| > 0 ==>
      r == "\t\tbackend." + c.updateOutput + "(" + Join([InputArg, OutputArg] + RenderEach(c.forwardSlots), Sep) + ");\n"
    ensures c.forwardSlots == [] ==>
      r == "\t\tbackend." + c.updateOutput + "(" + (Join([InputArg, OutputArg], Sep) + Sep) + ");\n"
  {
    LeadingTwoJoin(InputArg, OutputArg, RenderEach(c.forwardSlots));
    var args := InputArg + Sep + OutputArg + Sep + RenderAll(c.forwardSlots);
    "\t\tbackend." + c.updateOutput + "(" + args + ");\n"
  }

  /** The grad-input call line: `backend.<name>(` then `&mut input` when the
      kernel takes it, grad_output, grad_input, `&mut output` when saved, and the plan. */
  function BackwardCall(c: GeneralClass): (r: string)
    ensures r == "\t\t\tbackend." + c.updateGradInput + "(" + Join(BackwardCallArgs(c), Sep) + ");\n"
  {
    BackwardCallIsJoin(c);
    "\t\t\tbackend." + c.updateGradInput + "(" + BackwardCallText(c) + ");\n"
  }

  const GradOutputArg: string := "&mut grad_output"

  /** The text between the parentheses of the grad-input call. */
  function BackwardCallText(c: GeneralClass): string {
    (if c.needsInput then InputArg + Sep else "") + GradOutputArg + Sep + GradInputArg +
    (if c.saveOutput then Sep + OutputArg else "") +
    (if |c.backwardSlots| > 0 then Sep + RenderAll(c.backwardSlots) else "")
  }

  /** The arguments of the grad-input call, in order. */
  function BackwardCallArgs(c: GeneralClass): seq<string> {
    (if c.needsInput then [InputArg] else []) + [GradOutputArg, GradInputArg] +
    (if c.saveOutput then [OutputArg] else []) + RenderEach(c.backwardSlots)
  }

  /** The emitted grad-input call is the comma-separated list of its arguments:
      no separator is left dangling when the plan is empty. */
  lemma {:induction false} BackwardCallIsJoin(c: GeneralClass)
    ensures BackwardCallText(c) == Join(BackwardCallArgs(c), Sep)
  {
    HeadJoin(InputArg, GradOutputArg, GradInputArg, OutputArg, c.needsInput, c.saveOutput);
    var head := (if c.needsInput then [InputArg] else []) + [GradOutputArg, GradInputArg] +
                (if c.saveOutput then [OutputArg] else []);
    var headText := (if c.needsInput then InputArg + Sep else "") + GradOutputArg + Sep + GradInputArg +
                    (if c.saveOutput then Sep + OutputArg else "");
    CallJoin(head, headText, RenderEach(c.backwardSlots));
  }

  /** A joined non-empty head followed by a possibly empty tail of further arguments. */
  lemma {:induction false} CallJoin(head: seq<string>, headText: string, rest: seq<string>)
    requires |head| > 0 && Join(head, Sep) == headText
    ensures headText + (if |rest| > 0 then Sep + Join(rest, Sep) else "") == Join(head + rest, Sep)
  {
    if |rest| > 0 {
      JoinAppend(head, rest, Sep);
    } else {
      assert head + rest == head;
    }
  }

  /** The fixed leading arguments of the grad-input call, joined. */
  lemma {:induction false} HeadJoin(i: string, g: string, gi: string, o: string, needsInput: bool, saveOutput: bool)
    ensures Join((if needsInput then [i] else []) + [g, gi] + (if saveOutput then [o] else []), Sep) ==
            (if needsInput then i + Sep else "") + g + Sep + gi + (if saveOutput then Sep + o else "")
  {
    var a := [g, gi];
    assert Join(a, Sep) == g + Sep + gi by {
      assert a[..1] == [g];
    }
    var h := (if needsInput then [i] else []) + a;
    if needsInput {
      JoinAppend([i], a, Sep);
    } else {
      assert h == a;
    }
    if saveOutput {
      JoinAppend(h, [o], Sep);
    } else {
      assert h + [] == h;
    }
  }
}
