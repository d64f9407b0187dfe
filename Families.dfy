/** The family resolver: kernels are grouped by the prefix of their name
    before the first '_', the exception families are dropped, and each
    remaining family becomes one generated autograd function, in sorted order. */
module Families {
  import opened Common
  import opened Criterion
  import opened General

  /** `name.partition('_')[0]`: everything before the first '_', or the whole name. */
  function FamilyKey(name: string): (r: string)
    ensures StartsWith(name, r)
    ensures '_' !in r
    ensures |r| < |name| ==> name[|r|] == '_'
  {
    if name == [] then []
    else if name[0] == '_' then []
    else [name[0]] + FamilyKey(name[1..])
  }

  /** Python's `a < b` on strings: code-point lexicographic order, a proper prefix first. */
  predicate LexLess(a: string, b: string) {
    if |a| == 0 then |b| > 0
    else if |b| == 0 then false
    else if a[0] != b[0] then a[0] < b[0]
    else LexLess(a[1..], b[1..])
  }

  lemma {:induction false} LexLessIrreflexive(a: string)
    ensures !LexLess(a, a)
  {
    if |a| > 0 {
      LexLessIrreflexive(a[1..]);
    }
  }

  lemma {:induction false} LexLessTransitive(a: string, b: string, c: string)
    requires LexLess(a, b) && LexLess(b, c)
    ensures LexLess(a, c)
  {
    if |a| > 0 && |b| > 0 && |c| > 0 && a[0] == b[0] && b[0] == c[0] {
      LexLessTransitive(a[1..], b[1..], c[1..]);
    }
  }

  lemma {:induction false} LexLessTotal(a: string, b: string)
    requires a != b
    ensures LexLess(a, b) || LexLess(b, a)
  {
    if |a| > 0 && |b| > 0 && a[0] == b[0] {
      assert a == [a[0]] + a[1..] && b == [b[0]] + b[1..];
      LexLessTotal(a[1..], b[1..]);
    }
  }

  lemma {:induction false} LexLessAsymmetric(a: string, b: string)
    requires LexLess(a, b)
    ensures !LexLess(b, a)
  {
    if LexLess(b, a) {
      LexLessTransitive(a, b, a);
      LexLessIrreflexive(a);
    }
  }

  /** Strictly increasing, hence free of duplicates. */
  predicate StrictlySorted(s: seq<string>) {
    forall i, j :: 0 <= i < j < |s| ==> LexLess(s[i], s[j])
  }

  /** Every finite non-empty set of names has a least element. */
  lemma {:induction false} MinExists(s: set<string>)
    requires s != {}
    ensures exists m :: m in s && forall x :: x in s && x != m ==> LexLess(m, x)
    decreases |s|
  {
    var y :| y in s;
    var rest := s - {y};
    if rest == {} {
      assert forall x :: x in s ==> x in rest || x == y;
    } else {
      MinExists(rest);
      var m :| m in rest && forall x :: x in rest && x != m ==> LexLess(m, x);
      if LexLess(m, y) {
        assert forall x :: x in s && x != m ==> LexLess(m, x);
      } else {
        LexLessTotal(m, y);
        forall x | x in s && x != y ensures LexLess(y, x) {
          if x != m {
            LexLessTransitive(y, m, x);
          }
        }
      }
    }
  }

  /** `sorted(families)`: the names in increasing order, each once. */
  method SortNames(families: set<string>) returns (sorted: seq<string>)
    ensures StrictlySorted(sorted)
    ensures forall x :: x in sorted <==> x in families
    ensures |sorted| == |families|
  {
    sorted := [];
    var left := families;
    while left != {}
      invariant left <= families
      invariant forall x :: x in sorted <==> x in families && x !in left
      invariant StrictlySorted(sorted)
      invariant forall i, x :: 0 <= i < |sorted| && x in left ==> LexLess(sorted[i], x)
      invariant |sorted| + |left| == |families|
      decreases |left|
    {
      MinExists(left);
      var m :| m in left && forall x :: x in left && x != m ==> LexLess(m, x);
      forall i, x | 0 <= i < |sorted| && x in left - {m} ensures LexLess(sorted[i], x) {
      }
      sorted := sorted + [m];
      left := left - {m};
    }
  }

  /** Sorting is deterministic: two strictly sorted lists with the same names are equal. */
  lemma {:induction false} SortedUnique(a: seq<string>, b: seq<string>)
    requires StrictlySorted(a) && StrictlySorted(b)
    requires forall x :: x in a <==> x in b
    ensures a == b
    decreases |a|
  {
    assert (a == []) == (b == []) by {
      if a != [] { assert a[0] in b; }
      if b != [] { assert b[0] in a; }
    }
    if a != [] {
      var x, y := a[0], b[0];
      if x != y {
        assert y in a;
        var i :| 0 <= i < |a| && a[i] == y;
        assert x in b;
        var j :| 0 <= j < |b| && b[j] == x;
        assert LexLess(x, y);
        assert LexLess(y, x);
        LexLessAsymmetric(x, y);
      }
      forall z ensures z in a[1..] <==> z in b[1..] {
        if z in a[1..] {
          var i :| 1 <= i < |a| && a[i] == z;
          assert LexLess(x, z);
          if z == y { LexLessIrreflexive(z); }
          assert z in b;
          LexLessIrreflexive(z);
        }
        if z in b[1..] {
          var j :| 1 <= j < |b| && b[j] == z;
          assert LexLess(y, z);
          assert z in a;
          LexLessIrreflexive(z);
        }
      }
      SortedUnique(a[1..], b[1..]);
      assert a == [x] + a[1..] && b == [y] + b[1..];
    }
  }

  /** The families for which no class is generated. */
  const Exceptions: set<string> := {
    "Linear", "IndexLinear", "SpatialFullConvolution", "SpatialConvolutionMM", "SparseLinear",
    "TemporalConvolution", "SpatialAveragePooling", "SpatialMaxPooling", "SpatialDilatedMaxPooling",
    "SpatialMaxUnpooling", "SpatialAdaptiveMaxPooling", "SpatialAdaptiveAveragePooling",
    "VolumetricAveragePooling", "VolumetricMaxPooling", "VolumetricMaxUnpooling",
    "VolumetricConvolution", "VolumetricFullConvolution", "VolumetricConvolutionMM",
    "TemporalMaxPooling", "BatchNormalization", "LookupTable", "PReLU", "RReLU", "Threshold",
    "LeakyReLU", "GRUFused", "LSTMFused", "unfolded"}

  /** The generated class names that differ from their family. */
  const NameRemap: map<string, string> := map[
    "TemporalConvolution" := "Conv1d",
    "SpatialDilatedConvolution" := "DilatedConv2d",
    "SpatialMaxUnpooling" := "MaxUnpool2d",
    "SpatialReflectionPadding" := "ReflectionPad2d",
    "SpatialReplicationPadding" := "ReplicationPad2d",
    "VolumetricReplicationPadding" := "ReplicationPad3d",
    "VolumetricMaxUnpooling" := "MaxUnpool3d",
    "SoftMax" := "Softmax",
    "LogSoftMax" := "LogSoftmax",
    "HardTanh" := "Hardtanh",
    "HardShrink" := "Hardshrink",
    "SoftPlus" := "Softplus",
    "SoftShrink" := "Softshrink",
    "MSECriterion" := "MSELoss",
    "AbsCriterion" := "L1Loss",
    "BCECriterion" := "_BCELoss",
    "ClassNLLCriterion" := "NLLLoss",
    "DistKLDivCriterion" := "KLDivLoss",
    "SpatialClassNLLCriterion" := "NLLLoss2d",
    "MultiLabelMarginCriterion" := "MultiLabelMarginLoss",
    "MultiMarginCriterion" := "MultiMarginLoss",
    "SmoothL1Criterion" := "SmoothL1Loss",
    "SoftMarginCriterion" := "SoftMarginLoss"]

  /** The kernels that take part: none whose name contains "unfolded". */
  function FunctionList(fns: seq<FunctionDescriptor>): (r: seq<FunctionDescriptor>)
    ensures forall f :: f in r <==> f in fns && !Contains(f.name, "unfolded")
    ensures |fns| == 1 ==> r == if Contains(fns[0].name, "unfolded") then [] else fns
  {
    if fns == [] then []
    else
      var last := fns[|fns| - 1];
      assert fns == fns[..|fns| - 1] + [last];
      FunctionList(fns[..|fns| - 1]) + (if Contains(last.name, "unfolded") then [] else [last])
  }

  /** The filter keeps the order of the kernels: it distributes over concatenation. */
  lemma {:induction false} FunctionListAppend(a: seq<FunctionDescriptor>, b: seq<FunctionDescriptor>)
    ensures FunctionList(a + b) == FunctionList(a) + FunctionList(b)
  {
    if b != [] {
      var b' := b[..|b| - 1];
      FunctionListAppend(a, b');
      assert (a + b)[..|a + b| - 1] == a + b' && (a + b)[|a + b| - 1] == b[|b| - 1];
      FunctionListLast(a + b);
      FunctionListLast(b);
      AppendAssoc(FunctionList(a), FunctionList(b'), FunctionListTail(b));
    } else {
      assert a + b == a;
    }
  }

  lemma {:induction false} FunctionListLast(fns: seq<FunctionDescriptor>)
    requires fns != []
    ensures FunctionList(fns) == FunctionList(fns[..|fns| - 1]) + FunctionListTail(fns)
  {
  }

  lemma {:induction false} AppendAssoc<T>(x: seq<T>, y: seq<T>, t: seq<T>)
    ensures (x + y) + t == x + (y + t)
  {
  }

  /** What the last kernel of `fns` contributes to the list. */
  function FunctionListTail(fns: seq<FunctionDescriptor>): seq<FunctionDescriptor>
    requires fns != []
  {
    var last := fns[|fns| - 1];
    if Contains(last.name, "unfolded") then [] else [last]
  }

  /** `{fn.name: fn for fn in fns}`: a later kernel of the same name replaces an earlier one. */
  function ByName(fns: seq<FunctionDescriptor>): (r: map<string, FunctionDescriptor>)
    ensures forall n :: n in r <==> exists j :: 0 <= j < |fns| && fns[j].name == n
    ensures forall n :: n in r ==> r[n].name == n && r[n] in fns
  {
    if fns == [] then map[]
    else
      var init := fns[..|fns| - 1];
      var last := fns[|fns| - 1];
      assert forall j :: 0 <= j < |init| ==> init[j] == fns[j];
      ByName(init)[last.name := last]
  }

  /** The entry for a name is the last kernel carrying it. */
  lemma {:induction false} ByNameLastWins(fns: seq<FunctionDescriptor>, j: nat)
    requires j < |fns| && forall i :: j < i < |fns| ==> fns[i].name != fns[j].name
    ensures ByName(fns)[fns[j].name] == fns[j]
  {
    var init := fns[..|fns| - 1];
    if j < |fns| - 1 {
      ByNameLastWins(init, j);
    }
  }

  /** `{fn.name.partition('_')[0] for fn in fns}`. */
  function Keys(fns: seq<FunctionDescriptor>): (r: set<string>)
    ensures forall k :: k in r <==> exists j :: 0 <= j < |fns| && FamilyKey(fns[j].name) == k
  {
    if fns == [] then {}
    else
      var init := fns[..|fns| - 1];
      assert forall j :: 0 <= j < |init| ==> init[j] == fns[j];
      Keys(init) + {FamilyKey(fns[|fns| - 1].name)}
  }

  /** One generated autograd function. */
  datatype FamilyClass =
    | CriterionFamily(criterion: CriterionClass)
    | GeneralFamily(general: GeneralClass)

  /** Whether generating family `fam` raises, given the name index. */
  predicate FamilyFails(byName: map<string, FunctionDescriptor>, fam: string) {
    var uo := fam + "_updateOutput";
    var ugi := fam + "_updateGradInput";
    || uo !in byName
    || ugi !in byName
    || (!Contains(fam, "Criterion") &&
        (|byName[uo].arguments| == 0 || |byName[ugi].arguments| < 3))
  }

  /** The exception a failing family raises. */
  function FamilyError(byName: map<string, FunctionDescriptor>, fam: string): GenError {
    var uo := fam + "_updateOutput";
    var ugi := fam + "_updateGradInput";
    if uo !in byName then MissingMember(uo)
    else if ugi !in byName then MissingMember(ugi)
    else if |byName[uo].arguments| == 0 then IndexOutOfRange("update_output.arguments[-1]")
    else IndexOutOfRange("update_grad_input.arguments[2]")
  }

  /** The class generated for a family that does not fail. */
  predicate FamilyClassOf(byName: map<string, FunctionDescriptor>, remap: map<string, string>,
                          fam: string, c: FamilyClass)
  {
    var uo := fam + "_updateOutput";
    var ugi := fam + "_updateGradInput";
    var agp := fam + "_accGradParameters";
    && uo in byName && ugi in byName
    && (c.CriterionFamily? <==> Contains(fam, "Criterion"))
    && (c.CriterionFamily? ==> CriterionClassOf(Get(remap, fam), byName[uo], byName[ugi], c.criterion))
    && (c.GeneralFamily? ==>
          GeneralClassOf(Get(remap, fam), byName[uo], byName[ugi],
                         if agp in byName then Some(byName[agp]) else None, c.general))
  }

  /** The generation of one family. */
  method MakeFamily(byName: map<string, FunctionDescriptor>, remap: map<string, string>, fam: string)
    returns (r: Result<FamilyClass>)
    ensures r.Err? <==> FamilyFails(byName, fam)
    ensures r.Err? ==> r.error == FamilyError(byName, fam)
    ensures r.Ok? ==> FamilyClassOf(byName, remap, fam, r.value)
  {
    var uoName := fam + "_updateOutput";
    if uoName !in byName {
      return Err(MissingMember(uoName));
    }
    var updateOutput := byName[uoName];
    var ugiName := fam + "_updateGradInput";
    if ugiName !in byName {
      return Err(MissingMember(ugiName));
    }
    var updateGradInput := byName[ugiName];
    var agpName := fam + "_accGradParameters";
    var accGradParameters := if agpName in byName then Some(byName[agpName]) else None;
    var className := Get(remap, fam);
    if Contains(fam, "Criterion") {
      var c := MakeCriterionClass(className, updateOutput, updateGradInput, accGradParameters);
      r := Ok(CriterionFamily(c));
    } else {
      var g := MakeGeneralClass(className, updateOutput, updateGradInput, accGradParameters);
      if g.Err? {
        return Err(g.error);
      }
      r := Ok(GeneralFamily(g.value));
    }
  }

  /** `generate_function_classes` over the parsed kernels `fns`: the families
      in sorted order and, unless one of them raises, their classes. */
  method GenerateFunctionClasses(fns: seq<FunctionDescriptor>)
    returns (families: seq<string>, r: Result<seq<FamilyClass>>)
    ensures StrictlySorted(families)
    ensures forall k :: k in families <==> k in Keys(FunctionList(fns)) && k !in Exceptions
    ensures r.Ok? ==> |r.value| == |families|
    ensures r.Ok? ==> forall k :: 0 <= k < |families| ==> FamilyClassOf(ByName(FunctionList(fns)), NameRemap, families[k], r.value[k])
    ensures r.Ok? <==> forall k :: 0 <= k < |families| ==> !FamilyFails(ByName(FunctionList(fns)), families[k])
    ensures r.Err? ==> FirstFailure(ByName(FunctionList(fns)), families, r.error)
  {
    var functionList := FunctionList(fns);
    var byName := ByName(functionList);
    families := SelectFamilies(functionList, Exceptions);
    r := GenerateClasses(byName, NameRemap, families);
  }

  /** The set building, the in-place subtraction of the exceptions, and `sorted`. */
  method SelectFamilies(functionList: seq<FunctionDescriptor>, exceptions: set<string>) returns (families: seq<string>)
    ensures StrictlySorted(families)
    ensures forall k :: k in families <==> k in Keys(functionList) && k !in exceptions
  {
    var classesToGenerate := Keys(functionList);
    classesToGenerate := classesToGenerate - exceptions;
    families := SortNames(classesToGenerate);
  }

  /** Family `families[k]` fails with `e`, and every family before it succeeds. */
  predicate FirstFailure(byName: map<string, FunctionDescriptor>, families: seq<string>, e: GenError) {
    exists k :: 0 <= k < |families| && FamilyFails(byName, families[k]) && e == FamilyError(byName, families[k]) &&
      forall i :: 0 <= i < k ==> !FamilyFails(byName, families[i])
  }

  /** The loop over the sorted families; the first exception ends the generation. */
  method GenerateClasses(byName: map<string, FunctionDescriptor>, remap: map<string, string>, families: seq<string>)
    returns (r: Result<seq<FamilyClass>>)
    ensures r.Ok? ==> |r.value| == |families|
    ensures r.Ok? ==> forall k :: 0 <= k < |families| ==> FamilyClassOf(byName, remap, families[k], r.value[k])
    ensures r.Ok? <==> forall k :: 0 <= k < |families| ==> !FamilyFails(byName, families[k])
    ensures r.Err? ==> FirstFailure(byName, families, r.error)
  {
    var out: seq<FamilyClass> := [];
    for i := 0 to |families|
      invariant |out| == i
      invariant forall k :: 0 <= k < i ==> FamilyClassOf(byName, remap, families[k], out[k])
      invariant forall k :: 0 <= k < i ==> !FamilyFails(byName, families[k])
    {
      var c := MakeFamily(byName, remap, families[i]);
      if c.Err? {
        return Err(c.error);
      }
      out := out + [c.value];
    }
    r := Ok(out);
  }
}
