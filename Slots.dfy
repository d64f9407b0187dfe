/** Argument plans for the generated autograd functions. An emitted backend
    call is a list of slots; each slot is spelled as Rust text by Render. */
module Slots {
  import opened Common
  import opened Splice

  /** One argument of an emitted backend call. */
  datatype Slot =
    | ConfigArg(name: string)             // self.args.<name>
    | WeightSlot                          // &mut weight
    | SavedBuffer(k: nat)                 // &mut self.saved_tensors[k]
    | InputTensor(i: nat, optional: bool) // &mut input_list[i].clone(), inside Some(...) when optional
    | SavedTensor(i: nat, optional: bool) // &mut saved[i].clone(), inside Some(...) when optional

  /** The spelling of one slot: a tensor or buffer is passed by `&mut`
      reference, a configuration value is read from the Args struct. */
  function Render(s: Slot): (r: string)
    ensures s.ConfigArg? ==> StartsWith(r, "self.args.") && !StartsWith(r, "&mut ")
    ensures Spliced(s) ==> StartsWith(r, "&mut ")
  {
    match s
    case ConfigArg(n) =>
      assert ("self.args." + n)[0] != "&mut "[0];
      "self.args." + n
    case WeightSlot => "&mut weight"
    case SavedBuffer(k) => "&mut self.saved_tensors[" + NatToString(k) + "]"
    case InputTensor(i, opt) =>
      var t := "input_list[" + NatToString(i) + "].clone()";
      if opt then "&mut Some(" + t + ")" else "&mut " + t
    case SavedTensor(i, opt) =>
      var t := "saved[" + NatToString(i) + "].clone()";
      if opt then "&mut Some(" + t + ")" else "&mut " + t
  }

  const InputArg: string := "&mut input"
  const OutputArg: string := "&mut output"
  const GradInputArg: string := "&mut grad_input"

  /** The same with two fixed leading arguments. */
  lemma {:induction false} LeadingTwoJoin(x: string, y: string, rest: seq<string>)
    ensures x + Sep + y + Sep + Join(rest, Sep) ==
      if |rest| > 0 then Join([x, y] + rest, Sep) else Join([x, y], Sep) + Sep
  {
    assert [x, y][..1] == [x];
    if |rest| > 0 {
      JoinAppend([x, y], rest, Sep);
    }
  }

  /** A call whose argument list is three fixed leading arguments, a comma,
      and the joined slots: the list of them all, with a separator left
      dangling when there are no slots. */
  lemma {:induction false} LeadingThreeJoin(x: string, y: string, z: string, rest: seq<string>)
    ensures x + Sep + y + Sep + z + Sep + Join(rest, Sep) ==
      if |rest| > 0 then Join([x, y, z] + rest, Sep) else Join([x, y, z], Sep) + Sep
  {
    assert Join([x, y], Sep) == x + Sep + y by {
      assert [x, y][..1] == [x];
    }
    assert [x, y, z][..2] == [x, y];
    if |rest| > 0 {
      JoinAppend([x, y, z], rest, Sep);
    }
  }

  /** The emitted `', '.join(...)` of a slot list. */
  function RenderAll(slots: seq<Slot>): string {
    Join(RenderEach(slots), Sep)
  }

  /** The text of each slot, in order. */
  function RenderEach(slots: seq<Slot>): (r: seq<string>)
    ensures |r| == |slots|
  {
    seq(|slots|, k requires 0 <= k < |slots| => Render(slots[k]))
  }

  /** Slots that are spliced into the configuration list afterwards. */
  predicate Spliced(s: Slot) {
    !s.ConfigArg?
  }

  /** `[arg for arg in args if "Tensor" not in arg.type]`: the arguments that
      go into the generated Args struct. */
  function NonTensorArgs(args: seq<Argument>): (r: seq<Argument>)
    ensures |r| <= |args|
    ensures forall a :: a in r ==> a in args && !IsTensor(a)
    ensures |args| == 1 ==> r == if IsTensor(args[0]) then [] else args
  {
    if args == [] then []
    else
      var init := NonTensorArgs(args[..|args| - 1]);
      var last := args[|args| - 1];
      if IsTensor(last) then init else init + [last]
  }

  /** The filter keeps the order of the arguments: it distributes over concatenation. */
  lemma {:induction false} NonTensorArgsAppend(a: seq<Argument>, b: seq<Argument>)
    ensures NonTensorArgs(a + b) == NonTensorArgs(a) + NonTensorArgs(b)
  {
    if b == [] {
      assert a + b == a;
    } else {
      var b', last := b[..|b| - 1], b[|b| - 1];
      NonTensorArgsAppend(a, b');
      assert (a + b)[..|a + b| - 1] == a + b' && (a + b)[|a + b| - 1] == last;
      var tail := if IsTensor(last) then [] else [last];
      assert NonTensorArgs(b) == NonTensorArgs(b') + tail;
      assert NonTensorArgs(a + b) == NonTensorArgs(a + b') + tail;
    }
  }

  /** `["self.args.{}".format(arg.name) for arg in args if "Tensor" not in arg.type]`. */
  function ConfigSlots(args: seq<Argument>): (r: seq<Slot>)
    ensures |r| == |NonTensorArgs(args)|
  {
    if args == [] then []
    else
      var last := args[|args| - 1];
      if IsTensor(last) then ConfigSlots(args[..|args| - 1])
      else ConfigSlots(args[..|args| - 1]) + [ConfigArg(last.name)]
  }

  /** `[(idx, arg.is_optional) for idx, arg in enumerate(args) if "Tensor" in arg.type]`. */
  function TensorPositions(args: seq<Argument>): (r: seq<(nat, bool)>)
    ensures |r| <= |args|
  {
    if args == [] then []
    else
      var init := TensorPositions(args[..|args| - 1]);
      var last := args[|args| - 1];
      if IsTensor(last) then init + [(|args| - 1, last.isOptional)] else init
  }

  /** The slot for the tensor numbered `i`: from `input_list` in forward,
      from `saved` in backward. */
  function TensorSlot(saved: bool, i: nat, optional: bool): Slot {
    if saved then SavedTensor(i, optional) else InputTensor(i, optional)
  }

  /** The insertions `for i, (idx, opt) in enumerate(positions): lst.insert(idx, slot(first + i, opt))`. */
  function TensorItems(positions: seq<(nat, bool)>, saved: bool, first: nat): (r: seq<(int, Slot)>)
    ensures |r| == |positions|
  {
    if positions == [] then []
    else
      var last := positions[|positions| - 1];
      TensorItems(positions[..|positions| - 1], saved, first) +
        [(last.0, TensorSlot(saved, first + |positions| - 1, last.1))]
  }

  /** The native-order call plan: every tensor argument replaced by the slot
      numbered by its rank among the tensors, every other one by its config slot. */
  function NativeSlots(args: seq<Argument>, saved: bool, first: nat): (r: seq<Slot>)
    ensures |r| == |args|
  {
    if args == [] then []
    else
      var init := args[..|args| - 1];
      var last := args[|args| - 1];
      NativeSlots(init, saved, first) +
        [if IsTensor(last) then TensorSlot(saved, first + |TensorPositions(init)|, last.isOptional)
         else ConfigArg(last.name)]
  }

  /** The Python loop that inserts the tensor slots into `s`. */
  method InsertTensors(s: seq<Slot>, positions: seq<(nat, bool)>, saved: bool, first: nat) returns (r: seq<Slot>)
    ensures r == InsertAll(s, TensorItems(positions, saved, first))
  {
    r := s;
    for i := 0 to |positions|
      invariant r == InsertAll(s, TensorItems(positions[..i], saved, first))
    {
      var (idx, opt) := positions[i];
      r := PyInsert(r, idx, TensorSlot(saved, first + i, opt));
      assert positions[..i + 1][..i] == positions[..i];
    }
    assert positions[..|positions|] == positions;
  }

  /** The native-order plan splits into the config slots and the tensor insertions. */
  lemma {:induction false} NativeSlotsSplit(args: seq<Argument>, saved: bool, first: nat)
    ensures Unmarked(NativeSlots(args, saved, first), Spliced) == ConfigSlots(args)
    ensures MarkedItems(NativeSlots(args, saved, first), Spliced) == TensorItems(TensorPositions(args), saved, first)
  {
    if args != [] {
      var init := args[..|args| - 1];
      NativeSlotsSplit(init, saved, first);
      var last := args[|args| - 1];
      if IsTensor(last) {
        NativeSlotsTensorStep(args, saved, first);
        TensorItemsStep(args, saved, first);
      } else {
        NativeSlotsConfigStep(args, saved, first);
      }
    }
  }

  /** NativeSlotsSplit for a list ending in a tensor argument: the plan side. */
  lemma {:induction false} NativeSlotsTensorStep(args: seq<Argument>, saved: bool, first: nat)
    requires |args| > 0 && IsTensor(args[|args| - 1])
    ensures Unmarked(NativeSlots(args, saved, first), Spliced) == Unmarked(NativeSlots(args[..|args| - 1], saved, first), Spliced)
    ensures MarkedItems(NativeSlots(args, saved, first), Spliced) ==
      MarkedItems(NativeSlots(args[..|args| - 1], saved, first), Spliced) + [(|args| - 1, NativeSlots(args, saved, first)[|args| - 1])]
  {
    var init := args[..|args| - 1];
    var f := NativeSlots(args, saved, first);
    assert f[..|f| - 1] == NativeSlots(init, saved, first);
  }

  /** NativeSlotsSplit for a list ending in a tensor argument: the generator side. */
  lemma {:induction false} TensorItemsStep(args: seq<Argument>, saved: bool, first: nat)
    requires |args| > 0 && IsTensor(args[|args| - 1])
    ensures TensorItems(TensorPositions(args), saved, first) ==
      TensorItems(TensorPositions(args[..|args| - 1]), saved, first) + [(|args| - 1, NativeSlots(args, saved, first)[|args| - 1])]
  {
    var tp := TensorPositions(args);
    assert tp[..|tp| - 1] == TensorPositions(args[..|args| - 1]);
  }

  /** NativeSlotsSplit for a list ending in a non-tensor argument, given it for the rest. */
  lemma {:induction false} NativeSlotsConfigStep(args: seq<Argument>, saved: bool, first: nat)
    requires |args| > 0 && !IsTensor(args[|args| - 1])
    ensures Unmarked(NativeSlots(args, saved, first), Spliced) ==
      Unmarked(NativeSlots(args[..|args| - 1], saved, first), Spliced) + [ConfigArg(args[|args| - 1].name)]
    ensures MarkedItems(NativeSlots(args, saved, first), Spliced) == MarkedItems(NativeSlots(args[..|args| - 1], saved, first), Spliced)
  {
    var init := args[..|args| - 1];
    var f := NativeSlots(args, saved, first);
    assert f[..|f| - 1] == NativeSlots(init, saved, first);
  }

  /** Inserting the i-th tensor argument as slot `first + i` at its position in
      `args` rebuilds the native-order plan: the splice loop restores the
      kernel's argument order. */
  lemma {:induction false} TensorSpliceRestoresOrder(args: seq<Argument>, saved: bool, first: nat)
    ensures InsertAll(ConfigSlots(args), TensorItems(TensorPositions(args), saved, first)) == NativeSlots(args, saved, first)
  {
    NativeSlotsSplit(args, saved, first);
    RestoreOrder(NativeSlots(args, saved, first), Spliced);
  }

  /** In the native-order plan, a tensor argument gets a tensor slot and any other one its config slot. */
  lemma {:induction false} NativeSlotsAt(args: seq<Argument>, saved: bool, first: nat, j: nat)
    requires j < |args|
    ensures NativeSlots(args, saved, first)[j] ==
      if IsTensor(args[j]) then TensorSlot(saved, first + |TensorPositions(args[..j])|, args[j].isOptional)
      else ConfigArg(args[j].name)
  {
    var init := args[..|args| - 1];
    if j < |args| - 1 {
      NativeSlotsAt(init, saved, first, j);
      assert init[..j] == args[..j];
    }
  }

  /** Config slots of a concatenation are the concatenation of the config slots. */
  lemma {:induction false} ConfigSlotsAppend(a: seq<Argument>, b: seq<Argument>)
    ensures ConfigSlots(a + b) == ConfigSlots(a) + ConfigSlots(b)
  {
    if b == [] {
      assert a + b == a;
    } else {
      var b', last := b[..|b| - 1], b[|b| - 1];
      ConfigSlotsAppend(a, b');
      assert (a + b)[..|a + b| - 1] == a + b' && (a + b)[|a + b| - 1] == last;
      var tail := if IsTensor(last) then [] else [ConfigArg(last.name)];
      assert ConfigSlots(b) == ConfigSlots(b') + tail;
      assert ConfigSlots(a + b) == ConfigSlots(a + b') + tail;
    }
  }

  /** The config slots read the Args struct fields one by one, in order. */
  lemma {:induction false} ConfigSlotsAreFields(args: seq<Argument>)
    ensures var fields := NonTensorArgs(args);
      ConfigSlots(args) == seq(|fields|, k requires 0 <= k < |fields| => ConfigArg(fields[k].name))
  {
    if args != [] {
      var init, last := args[..|args| - 1], args[|args| - 1];
      ConfigSlotsAreFields(init);
      var fi := NonTensorArgs(init);
      var fields := NonTensorArgs(args);
      if !IsTensor(last) {
        assert fields == fi + [last];
        var cs := ConfigSlots(args);
        assert cs == ConfigSlots(init) + [ConfigArg(last.name)];
        assert forall k :: 0 <= k < |fields| ==> cs[k] == ConfigArg(fields[k].name) by {
          forall k | 0 <= k < |fields| ensures cs[k] == ConfigArg(fields[k].name) {
            if k < |fi| {
              assert cs[k] == ConfigSlots(init)[k];
              assert fields[k] == fi[k];
            }
          }
        }
      }
    }
  }

  /** A run of tensor arguments contributes no config slot. */
  lemma {:induction false} ConfigSlotsOfTensors(a: seq<Argument>)
    requires forall j :: 0 <= j < |a| ==> IsTensor(a[j])
    ensures ConfigSlots(a) == []
  {
    if a != [] {
      ConfigSlotsOfTensors(a[..|a| - 1]);
    }
  }
}
