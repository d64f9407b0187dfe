/** The type-transform registry: one map per backend variant from native type
    tokens to the Rust type to emit. The maps start from per-variant literals
    and, when the generator is loaded, absorb the shared entries in place. */
module Registry {
  import opened Common

  datatype Variant = Trait | Float | Double | CudaHalf | Cuda | CudaDouble

  /** The variants in the order the registry literal lists them. */
  const AllVariants: seq<Variant> := [Trait, Float, Double, CudaHalf, Cuda, CudaDouble]

  /** The variant's name as it appears in kernel names (THNN_<name>...). */
  function VariantName(v: Variant): string {
    match v
    case Trait => "Trait"
    case Float => "Float"
    case Double => "Double"
    case CudaHalf => "CudaHalf"
    case Cuda => "Cuda"
    case CudaDouble => "CudaDouble"
  }

  /** Where `v` stands in AllVariants. */
  function VariantIndex(v: Variant): (i: nat)
    ensures i < |AllVariants| && AllVariants[i] == v
  {
    match v
    case Trait => 0
    case Float => 1
    case Double => 2
    case CudaHalf => 3
    case Cuda => 4
    case CudaDouble => 5
  }

  predicate IsCpu(v: Variant) { v == Float || v == Double }
  predicate IsGpu(v: Variant) { v == CudaHalf || v == Cuda || v == CudaDouble }

  const CommonTransforms: map<string, string> := map[
    "THIndex_t" := "i64",
    "THCIndex_t" := "usize",
    "THInteger_t" := "i32",
    "int" := "i32"]

  const CommonCpuTransforms: map<string, string> := map[
    "THNNState*" := "void*",
    "THIndexTensor*" := "THLongTensor*",
    "THIntegerTensor*" := "THIntTensor*"]

  const CommonGpuTransforms: map<string, string> := map[
    "THCState*" := "void*",
    "THCIndexTensor*" := "THCudaLongTensor*"]

  /** The per-variant literals, before any shared entry is absorbed. */
  function BaseTable(v: Variant): map<string, string> {
    match v
    case Trait => map[
      "int" := "i32",
      "long" := "i64",
      "THTensor*" := "&mut TensorKind",
      "real" := "f32",
      "accreal" := "f64",
      "double" := "f64",
      "THIndexTensor*" := "&mut TensorKind",
      "THIntegerTensor*" := "&mut TensorKind",
      "THGenerator*" := "&mut THGenerator"]
    case Float => map["THTensor*" := "THFloatTensor*", "real" := "float", "accreal" := "double"]
    case Double => map["THTensor*" := "THDoubleTensor*", "real" := "double", "accreal" := "double"]
    case CudaHalf => map["THCTensor*" := "THCudaHalfTensor*", "real" := "half", "accreal" := "float"]
    case Cuda => map["THCTensor*" := "THCudaTensor*", "real" := "float", "accreal" := "float"]
    case CudaDouble => map["THCTensor*" := "THCudaDoubleTensor*", "real" := "double", "accreal" := "double"]
  }

  function BaseTables(): map<Variant, map<string, string>> {
    map v: Variant | v in AllVariants :: BaseTable(v)
  }

  /** The bucket entries variant `v` absorbs after the common ones: CPU
      entries for Float and Double, GPU entries for the Cuda variants, none for Trait. */
  function BucketTransforms(v: Variant): map<string, string> {
    if IsCpu(v) then CommonCpuTransforms
    else if IsGpu(v) then CommonGpuTransforms
    else map[]
  }

  /** The map variant `v` holds once `dict.update` has applied the common and then the bucket entries. */
  function Absorb(v: Variant, m: map<string, string>): map<string, string> {
    m + CommonTransforms + BucketTransforms(v)
  }

  /** What the load-time loops leave in a registry `t`. */
  function AbsorbAll(t: map<Variant, map<string, string>>): map<Variant, map<string, string>> {
    map v | v in t :: Absorb(v, t[v])
  }

  /** The registry every emitter reads: the literals after absorption. */
  function Initialized(): (r: map<Variant, map<string, string>>)
    ensures forall v: Variant :: v in r
  {
    AllVariantsListed();
    AbsorbAll(BaseTables())
  }

  /** AllVariants lists every variant. */
  lemma {:induction false} AllVariantsListed()
    ensures forall v: Variant :: v in AllVariants
  {
    forall v: Variant ensures v in AllVariants {
      var _ := VariantIndex(v);
    }
  }

  /** `TYPE_TRANSFORMS[v].get(token, token)`: the mapped type, or the token itself. */
  function Lookup(v: Variant, token: string): (r: string)
    ensures token !in Initialized()[v] ==> r == token
  {
    var m := Initialized()[v];
    if token in m then m[token] else token
  }

  /** `rstype`: the Trait mapping of an argument's type. */
  function RsType(a: Argument): (r: string)
    ensures a.typ in CommonTransforms ==> r == CommonTransforms[a.typ]
    ensures a.typ !in Initialized()[Trait] ==> r == a.typ
  {
    if a.typ in CommonTransforms then
      CommonEntriesEverywhere(Trait, a.typ);
      Lookup(Trait, a.typ)
    else Lookup(Trait, a.typ)
  }

  /** The mutable registry of the generator module. */
  class TypeRegistry {
    var transforms: map<Variant, map<string, string>>

    constructor ()
      ensures transforms == BaseTables()
    {
      transforms := BaseTables();
    }

    /** The three `update` loops run at module load: the common entries into
        every variant, the CPU entries into Float and Double, the GPU entries
        into the three Cuda variants. */
    method AbsorbShared()
      requires forall v: Variant :: v in transforms
      modifies this
      ensures transforms == AbsorbAll(old(transforms))
    {
      ghost var t0 := transforms;
      UpdateEach(AllVariants, CommonTransforms);
      ghost var t1 := transforms;
      UpdateEach([Float, Double], CommonCpuTransforms);
      ghost var t2 := transforms;
      UpdateEach([CudaHalf, Cuda, CudaDouble], CommonGpuTransforms);
      ThreeUpdates(t0, t1, t2, transforms, CommonTransforms, CommonCpuTransforms, CommonGpuTransforms);
      AbsorbedPointwise(t0, transforms);
    }

    /** One `for t in variants: TYPE_TRANSFORMS[t].update(extra)` loop. */
    method UpdateEach(variants: seq<Variant>, extra: map<string, string>)
      requires forall v: Variant :: v in transforms
      modifies this
      ensures forall v: Variant :: v in transforms
      ensures forall v: Variant :: transforms[v] == if v in variants then old(transforms[v]) + extra else old(transforms[v])
    {
      ghost var t0 := transforms;
      for i := 0 to |variants|
        invariant forall v: Variant :: v in transforms
        invariant forall v: Variant :: transforms[v] == if v in variants[..i] then t0[v] + extra else t0[v]
      {
        var v := variants[i];
        assert variants[..i + 1] == variants[..i] + [v];
        transforms := transforms[v := transforms[v] + extra];
      }
      assert variants[..|variants|] == variants;
    }
  }

  /** The effect of the three load-time loops, for any common, CPU and GPU tables. */
  lemma {:induction false} ThreeUpdates(t0: map<Variant, map<string, string>>, t1: map<Variant, map<string, string>>,
                     t2: map<Variant, map<string, string>>, t3: map<Variant, map<string, string>>,
                     c: map<string, string>, cpu: map<string, string>, gpu: map<string, string>)
    requires forall v: Variant :: v in t0 && v in t1 && v in t2 && v in t3
    requires forall v: Variant :: t1[v] == if v in AllVariants then t0[v] + c else t0[v]
    requires forall v: Variant :: t2[v] == if v in [Float, Double] then t1[v] + cpu else t1[v]
    requires forall v: Variant :: t3[v] == if v in [CudaHalf, Cuda, CudaDouble] then t2[v] + gpu else t2[v]
    ensures forall v: Variant :: t3[v] == t0[v] + c + (if IsCpu(v) then cpu else if IsGpu(v) then gpu else map[])
  {
    forall v: Variant ensures t3[v] == t0[v] + c + (if IsCpu(v) then cpu else if IsGpu(v) then gpu else map[]) {
      assert v in AllVariants by { var _ := VariantIndex(v); }
      if !IsCpu(v) && !IsGpu(v) {
        assert t1[v] + map[] == t1[v];
      }
    }
  }

  /** A registry that holds, for every variant, the common and then the bucket entries over `t0` is `AbsorbAll(t0)`. */
  lemma {:induction false} AbsorbedPointwise(t0: map<Variant, map<string, string>>, t3: map<Variant, map<string, string>>)
    requires forall v: Variant :: v in t0 && v in t3
    requires forall v: Variant ::
               t3[v] == t0[v] + CommonTransforms + (if IsCpu(v) then CommonCpuTransforms else if IsGpu(v) then CommonGpuTransforms else map[])
    ensures t3 == AbsorbAll(t0)
  {
  }

  /** No common token is also a bucket token, so the bucket updates never override a common entry. */
  lemma {:induction false} CommonDisjointFromBuckets(v: Variant)
    ensures CommonTransforms.Keys !! BucketTransforms(v).Keys
  {
  }

  /** Hence the common loop and the bucket loop may run in either order. */
  lemma {:induction false} BucketOrderIrrelevant(v: Variant, m: map<string, string>)
    ensures m + CommonTransforms + BucketTransforms(v) == m + BucketTransforms(v) + CommonTransforms
  {
    CommonDisjointFromBuckets(v);
    var c, b := CommonTransforms, BucketTransforms(v);
    var l, r := m + c + b, m + b + c;
    assert l.Keys == r.Keys;
    forall k | k in l.Keys
      ensures l[k] == r[k]
    {
      if k in b {
        assert k !in c;
      }
    }
  }

  /** An entry of the map applied last but one survives the last update when that one lacks its key. */
  lemma {:induction false} UpdateKeeps<K, V>(m: map<K, V>, c: map<K, V>, p: map<K, V>, k: K)
    requires k in c && k !in p
    ensures k in m + c + p && (m + c + p)[k] == c[k]
  {
  }

  /** The initialized map of `v` is its literal after absorption. */
  lemma {:induction false} InitializedAt(v: Variant)
    ensures Initialized()[v] == Absorb(v, BaseTable(v))
  {
    assert v in AllVariants by { var _ := VariantIndex(v); }
  }

  /** Every variant, Trait included, maps each common token to its common type. */
  lemma {:induction false} CommonEntriesEverywhere(v: Variant, token: string)
    requires token in CommonTransforms
    ensures token in Initialized()[v] && Initialized()[v][token] == CommonTransforms[token]
  {
    InitializedAt(v);
    CommonDisjointFromBuckets(v);
    UpdateKeeps(BaseTable(v), CommonTransforms, BucketTransforms(v), token);
  }

  /** Float and Double hold every CPU entry. */
  lemma {:induction false} CpuEntriesPresent(v: Variant, token: string)
    requires IsCpu(v) && token in CommonCpuTransforms
    ensures token in Initialized()[v] && Initialized()[v][token] == CommonCpuTransforms[token]
  {
    InitializedAt(v);
  }

  /** The three Cuda variants hold every GPU entry. */
  lemma {:induction false} GpuEntriesPresent(v: Variant, token: string)
    requires IsGpu(v) && token in CommonGpuTransforms
    ensures token in Initialized()[v] && Initialized()[v][token] == CommonGpuTransforms[token]
  {
    InitializedAt(v);
  }

  /** A token the initialized map of `v` does not know is looked up as itself,
      and a known one as its mapped type. */
  lemma {:induction false} LookupFallsBack(v: Variant, token: string)
    ensures Lookup(v, token) == (if token in Absorb(v, BaseTable(v)) then Absorb(v, BaseTable(v))[token] else token)
  {
    InitializedAt(v);
  }

  /** Applying the same two `update`s a second time changes nothing. */
  lemma {:induction false} UpdateTwice<K, V>(m: map<K, V>, c: map<K, V>, p: map<K, V>)
    ensures m + c + p + c + p == m + c + p
  {
    var once := m + c + p;
    assert (once + c + p).Keys == once.Keys;
  }

  /** Absorbing the shared entries twice gives what absorbing them once gives. */
  lemma {:induction false} AbsorbIdempotent(t: map<Variant, map<string, string>>)
    ensures AbsorbAll(AbsorbAll(t)) == AbsorbAll(t)
  {
    forall v | v in t ensures Absorb(v, Absorb(v, t[v])) == Absorb(v, t[v]) {
      UpdateTwice(t[v], CommonTransforms, BucketTransforms(v));
    }
  }
}
