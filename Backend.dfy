/** The backend emitters: which native kernels get a trait method, the trait
    declaration of each, and the per-variant body that forwards the call to
    the native `THNN_<Variant><name>` kernel. */
module Backend {
  import opened Common
  import opened Registry

  /** The kernel-name suffixes that make a kernel wrapped. */
  const WrapSuffixes: seq<string> := ["updateOutput", "updateGradInput", "accGradParameters", "backward"]

  /** `should_wrap_function`: LookupTable kernels never, otherwise the
      forward, backward and parameter-gradient kernels. */
  function ShouldWrap(name: string): (r: bool)
    ensures r ==> !StartsWith(name, "LookupTable_")
    ensures (!EndsWith(name, "updateOutput") && !EndsWith(name, "updateGradInput") &&
             !EndsWith(name, "accGradParameters") && !EndsWith(name, "backward")) ==> !r
  {
    if StartsWith(name, "LookupTable_") then false
    else EndsWith(name, "updateOutput") || EndsWith(name, "updateGradInput") ||
         EndsWith(name, "accGradParameters") || EndsWith(name, "backward")
  }

  /** A kernel is wrapped exactly when it is not a LookupTable kernel and its
      name ends with one of the four suffixes. */
  lemma {:induction false} ShouldWrapIff(name: string)
    ensures ShouldWrap(name) <==>
      !StartsWith(name, "LookupTable_") && exists k :: 0 <= k < |WrapSuffixes| && EndsWith(name, WrapSuffixes[k])
  {
    if !StartsWith(name, "LookupTable_") {
      if EndsWith(name, "updateOutput") { assert EndsWith(name, WrapSuffixes[0]); }
      if EndsWith(name, "updateGradInput") { assert EndsWith(name, WrapSuffixes[1]); }
      if EndsWith(name, "accGradParameters") { assert EndsWith(name, WrapSuffixes[2]); }
      if EndsWith(name, "backward") { assert EndsWith(name, WrapSuffixes[3]); }
    }
  }

  /** Any name with the LookupTable prefix is left out, whatever its suffix. */
  lemma {:induction false} LookupTableNeverWrapped(suffix: string)
    ensures !ShouldWrap("LookupTable_" + suffix)
  {
    assert ("LookupTable_" + suffix)[..|"LookupTable_"|] == "LookupTable_";
  }

  /** The kernels both backend files declare: not "unfolded", and wrapped. */
  function WrappedFunctions(fns: seq<FunctionDescriptor>): (r: seq<FunctionDescriptor>)
    ensures forall f :: f in r <==> f in fns && !Contains(f.name, "unfolded") && ShouldWrap(f.name)
    ensures |fns| == 1 ==> r == if !Contains(fns[0].name, "unfolded") && ShouldWrap(fns[0].name) then fns else []
  {
    if fns == [] then []
    else
      var init := WrappedFunctions(fns[..|fns| - 1]);
      var last := fns[|fns| - 1];
      assert fns == fns[..|fns| - 1] + [last];
      if !Contains(last.name, "unfolded") && ShouldWrap(last.name) then init + [last] else init
  }

  /** The filter keeps the order of the kernels: it distributes over concatenation. */
  lemma {:induction false} WrappedFunctionsAppend(a: seq<FunctionDescriptor>, b: seq<FunctionDescriptor>)
    ensures WrappedFunctions(a + b) == WrappedFunctions(a) + WrappedFunctions(b)
  {
    if b == [] {
      assert a + b == a;
    } else {
      var b', last := b[..|b| - 1], b[|b| - 1];
      WrappedFunctionsAppend(a, b');
      assert (a + b)[..|a + b| - 1] == a + b' && (a + b)[|a + b| - 1] == last;
      var tail := if !Contains(last.name, "unfolded") && ShouldWrap(last.name) then [last] else [];
      assert WrappedFunctions(b) == WrappedFunctions(b') + tail;
      assert WrappedFunctions(a + b) == WrappedFunctions(a + b') + tail;
    }
  }

  /** One `, <name>: <type>` parameter of a trait declaration; `trait` is the Trait variant's map. */
  function DeclParam(traitMap: map<string, string>, a: Argument): string {
    ", " + a.name + ": " + (if a.isOptional then "&mut Option<TensorKind>" else Get(traitMap, a.typ))
  }

  /** The parameters of a trait declaration, one per argument, in order. */
  function DeclParams(traitMap: map<string, string>, args: seq<Argument>): string {
    if args == [] then "" else DeclParams(traitMap, args[..|args| - 1]) + DeclParam(traitMap, args[|args| - 1])
  }

  /** Under the registry's Trait map, a required argument is declared with its `rstype`. */
  lemma {:induction false} DeclParamIsRsType(a: Argument)
    requires !a.isOptional
    ensures DeclParam(Initialized()[Trait], a) == ", " + a.name + ": " + RsType(a)
  {
  }

  /** `wrap_function_decl`: the state argument is replaced by `&mut self`. */
  method WrapFunctionDecl(traitMap: map<string, string>, name: string, arguments: seq<Argument>) returns (declaration: string)
    ensures declaration == "\tfn " + name + "(&mut self" + DeclParams(traitMap, Drop(arguments, 1)) + ")"
  {
    var cname := name;
    var head := "\tfn " + cname + "(&mut self";
    declaration := head;
    var rest := Drop(arguments, 1);
    for i := 0 to |rest|
      invariant declaration == head + DeclParams(traitMap, rest[..i])
    {
      var arg := rest[i];
      assert rest[..i + 1][..i] == rest[..i];
      var nexttype := Get(traitMap, arg.typ);
      var param := ", " + arg.name + ": " + (if !arg.isOptional then nexttype else "&mut Option<TensorKind>");
      Assoc(head, DeclParams(traitMap, rest[..i]), param);
      declaration := declaration + param;
    }
    assert rest[..|rest|] == rest;
    declaration := declaration + ")";
  }

  lemma {:induction false} Assoc<T>(a: seq<T>, b: seq<T>, c: seq<T>)
    ensures a + b + c == a + (b + c)
  {
  }

  /** The parameters of a concatenation are the parameters of each part. */
  lemma {:induction false} DeclParamsAppend(traitMap: map<string, string>, a: seq<Argument>, b: seq<Argument>)
    ensures DeclParams(traitMap, a + b) == DeclParams(traitMap, a) + DeclParams(traitMap, b)
  {
    if b == [] {
      assert a + b == a;
    } else {
      DeclParamsAppend(traitMap, a, b[..|b| - 1]);
      assert (a + b)[..|a + b| - 1] == a + b[..|b| - 1];
    }
  }

  /** The declaration parameters list each argument after the state as its
      own parameter: appending an argument appends its parameter. */
  lemma {:induction false} DeclAppendArgument(traitMap: map<string, string>, name: string, arguments: seq<Argument>, a: Argument)
    requires |arguments| > 0
    ensures "\tfn " + name + "(&mut self" + DeclParams(traitMap, Drop(arguments + [a], 1)) + ")" ==
            "\tfn " + name + "(&mut self" + DeclParams(traitMap, Drop(arguments, 1)) + DeclParam(traitMap, a) + ")"
  {
    assert Drop(arguments + [a], 1) == Drop(arguments, 1) + [a];
  }

  /** `arg_cast`: a tensor becomes `<name>.inner() as *mut <mapped type minus its last character>`;
      `transforms` is the variant's map, and a tensor type it lacks is a KeyError. */
  function ArgCast(transforms: map<string, string>, v: Variant, name: string, argtype: string): (r: Result<string>)
    ensures r.Ok? ==> StartsWith(r.value, name)
    ensures !Contains(argtype, "Tensor") ==> r == Ok(name)
    ensures r.Err? <==> Contains(argtype, "Tensor") && argtype !in transforms
    ensures r.Err? ==> r.error == UnmappedType(argtype, VariantName(v))
  {
    if Contains(argtype, "Tensor") then
      if argtype in transforms then Ok(name + ".inner() as *mut " + DropLast(transforms[argtype]))
      else Err(UnmappedType(argtype, VariantName(v)))
    else Ok(name)
  }

  /** `arg_cast_inner`: the same cast for an argument already unwrapped to its raw `*mut`. */
  function ArgCastInner(transforms: map<string, string>, v: Variant, name: string, argtype: string): (r: Result<string>)
    ensures r.Ok? ==> StartsWith(r.value, name)
    ensures !Contains(argtype, "Tensor") ==> r == Ok(name)
    ensures r.Err? <==> Contains(argtype, "Tensor") && argtype !in transforms
    ensures r.Err? ==> r.error == UnmappedType(argtype, VariantName(v))
  {
    if Contains(argtype, "Tensor") then
      if argtype in transforms then Ok(name + " as *mut " + DropLast(transforms[argtype]))
      else Err(UnmappedType(argtype, VariantName(v)))
    else Ok(name)
  }

  /** The two casts differ only by `.inner()`: casting `n.inner()` as
      unwrapped is casting `n` as wrapped, and both fail alike. */
  lemma {:induction false} ArgCastViaInner(transforms: map<string, string>, v: Variant, name: string, argtype: string)
    requires Contains(argtype, "Tensor")
    ensures ArgCastInner(transforms, v, name + ".inner()", argtype) == ArgCast(transforms, v, name, argtype)
  {
    if argtype in transforms {
      var t := DropLast(transforms[argtype]);
      assert name + ".inner()" + " as *mut " + t == name + ".inner() as *mut " + t;
    }
  }

  /** A tensor mapped to the C type `x*` is cast to `*mut x`: the cast drops the star. */
  lemma {:induction false} ArgCastDropsStar(transforms: map<string, string>, v: Variant, name: string, argtype: string, x: string)
    requires Contains(argtype, "Tensor") && argtype in transforms && transforms[argtype] == x + "*"
    ensures ArgCast(transforms, v, name, argtype) == Ok(name + ".inner() as *mut " + x)
  {
    assert DropLast(x + "*") == x;
  }

  /** The same for `arg_cast_inner`: an unwrapped tensor mapped to `x*` is cast to `*mut x`. */
  lemma {:induction false} ArgCastInnerDropsStar(transforms: map<string, string>, v: Variant, name: string, argtype: string, x: string)
    requires Contains(argtype, "Tensor") && argtype in transforms && transforms[argtype] == x + "*"
    ensures ArgCastInner(transforms, v, name, argtype) == Ok(name + " as *mut " + x)
  {
    assert DropLast(x + "*") == x;
  }

  /** `unwrap_option`: the optional tensor becomes its raw `*mut` handle or null. */
  function UnwrapOption(a: Argument): (r: string)
    ensures StartsWith(r, "\t\tlet mut " + a.name + " = if let &mut Some(ref t) = " + a.name + " ")
    ensures EndsWith(r, "{ ::std::ptr::null_mut()};\n")
  {
    var head := "\t\tlet mut " + a.name + " = if let &mut Some(ref t) = " + a.name + " ";
    var tail := "{ ::std::ptr::null_mut()};\n";
    var r := head + "{t.inner()} else " + tail;
    assert r[..|head|] == head && r[|r| - |tail|..] == tail;
    r
  }

  /** The unwrap lines emitted before the call, one per optional argument. */
  function UnwrapLines(args: seq<Argument>): string {
    if args == [] then ""
    else
      var last := args[|args| - 1];
      UnwrapLines(args[..|args| - 1]) + (if last.isOptional then UnwrapOption(last) else "")
  }

  /** The optional arguments, in order. */
  function OptionalArgs(args: seq<Argument>): (r: seq<Argument>)
    ensures forall a :: a in r <==> a in args && a.isOptional
    ensures |args| == 1 ==> r == if args[0].isOptional then args else []
  {
    if args == [] then []
    else
      var last := args[|args| - 1];
      assert args == args[..|args| - 1] + [last];
      OptionalArgs(args[..|args| - 1]) + (if last.isOptional then [last] else [])
  }

  /** The optional arguments keep their order: the filter distributes over concatenation. */
  lemma {:induction false} OptionalArgsAppend(a: seq<Argument>, b: seq<Argument>)
    ensures OptionalArgs(a + b) == OptionalArgs(a) + OptionalArgs(b)
  {
    if b == [] {
      assert a + b == a;
    } else {
      var b', last := b[..|b| - 1], b[|b| - 1];
      OptionalArgsAppend(a, b');
      assert (a + b)[..|a + b| - 1] == a + b' && (a + b)[|a + b| - 1] == last;
      var tail := if last.isOptional then [last] else [];
      assert OptionalArgs(b) == OptionalArgs(b') + tail;
      assert OptionalArgs(a + b) == OptionalArgs(a + b') + tail;
    }
  }

  /** One unwrap line per argument of `opts`, in order. */
  function UnwrapEach(opts: seq<Argument>): (r: seq<string>)
    ensures |r| == |opts|
    ensures forall k :: 0 <= k < |opts| ==> r[k] == UnwrapOption(opts[k])
  {
    if opts == [] then [] else UnwrapEach(opts[..|opts| - 1]) + [UnwrapOption(opts[|opts| - 1])]
  }

  /** The unwrap lines are exactly one `unwrap_option` line per optional argument, in order. */
  lemma {:induction false} UnwrapLinesPerOptional(args: seq<Argument>)
    ensures UnwrapLines(args) == Concat(UnwrapEach(OptionalArgs(args)))
  {
    if args != [] {
      var init := args[..|args| - 1];
      var last := args[|args| - 1];
      UnwrapLinesPerOptional(init);
      var oi := OptionalArgs(init);
      if last.isOptional {
        var o := oi + [last];
        assert OptionalArgs(args) == o;
        assert o[..|o| - 1] == oi;
        var l := UnwrapEach(o);
        assert l[..|l| - 1] == UnwrapEach(oi);
      } else {
        assert OptionalArgs(args) == oi + [];
        assert oi + [] == oi;
      }
    }
  }

  /** One cast as the call passes it: unwrapped optional arguments go through `arg_cast_inner`. */
  function CallArg(transforms: map<string, string>, v: Variant, a: Argument): Result<string> {
    if a.isOptional then ArgCastInner(transforms, v, a.name, a.typ) else ArgCast(transforms, v, a.name, a.typ)
  }

  /** The `, <cast>` list of the call, or the KeyError of the first argument whose cast fails. */
  function CastList(transforms: map<string, string>, v: Variant, args: seq<Argument>): Result<string> {
    if args == [] then Ok("")
    else
      var init := CastList(transforms, v, args[..|args| - 1]);
      if init.Err? then init
      else
        var c := CallArg(transforms, v, args[|args| - 1]);
        if c.Err? then Err(c.error) else Ok(init.value + ", " + c.value)
  }

  /** The cast list fails exactly when some tensor argument has a type the variant does not map,
      and then with the first such type. */
  lemma {:induction false} CastListFails(transforms: map<string, string>, v: Variant, args: seq<Argument>)
    ensures CastList(transforms, v, args).Err? <==>
      exists j :: 0 <= j < |args| && IsTensor(args[j]) && args[j].typ !in transforms
    ensures CastList(transforms, v, args).Err? ==>
      exists j :: 0 <= j < |args| && IsTensor(args[j]) && args[j].typ !in transforms &&
        CastList(transforms, v, args).error == UnmappedType(args[j].typ, VariantName(v)) &&
        forall i :: 0 <= i < j ==> !(IsTensor(args[i]) && args[i].typ !in transforms)
  {
    if args != [] {
      var init := args[..|args| - 1];
      CastListFails(transforms, v, init);
      assert forall i :: 0 <= i < |init| ==> init[i] == args[i];
      var last := args[|args| - 1];
      if CastList(transforms, v, init).Ok? && CallArg(transforms, v, last).Ok? {
        forall j | 0 <= j < |args| ensures !(IsTensor(args[j]) && args[j].typ !in transforms) {
          if j < |init| {
            assert init[j] == args[j];
          }
        }
      }
    }
  }

  /** The kernel a variant's method forwards to. */
  function KernelName(v: Variant, name: string): string {
    "THNN_" + VariantName(v) + name
  }

  /** What `wrap_function_impl` returns for arguments whose casts all succeed. */
  function ImplText(transforms: map<string, string>, v: Variant, name: string, arguments: seq<Argument>): Result<string> {
    var rest := Drop(arguments, 1);
    var casts := CastList(transforms, v, rest);
    if casts.Err? then Err(casts.error)
    else Ok(UnwrapLines(rest) + "\t\tunsafe {\n" + "\t\t\t" + KernelName(v, name) + "(self.state" +
            casts.value + ");\n" + "\t\t}\n")
  }

  /** `wrap_function_impl`: the unwrap lines, then a single unsafe call to the
      native kernel with `self.state` and the remaining arguments in order. */
  method WrapFunctionImpl(transforms: map<string, string>, v: Variant, name: string, arguments: seq<Argument>) returns (r: Result<string>)
    ensures r == ImplText(transforms, v, name, arguments)
  {
    var rest := Drop(arguments, 1);
    var impl := EmitUnwraps(rest);
    var cname := KernelName(v, name);
    impl := impl + "\t\tunsafe {\n";
    impl := impl + "\t\t\t" + cname + "(self.state";
    var casts := EmitCasts(transforms, v, rest);
    if casts.Err? {
      return Err(casts.error);
    }
    impl := impl + casts.value;
    impl := impl + ");\n";
    impl := impl + "\t\t}\n";
    r := Ok(impl);
  }

  /** The first loop of `wrap_function_impl`: one unwrap line per optional argument. */
  method EmitUnwraps(rest: seq<Argument>) returns (impl: string)
    ensures impl == UnwrapLines(rest)
  {
    impl := "";
    for i := 0 to |rest|
      invariant impl == UnwrapLines(rest[..i])
    {
      assert rest[..i + 1][..i] == rest[..i];
      if rest[i].isOptional {
        impl := impl + UnwrapOption(rest[i]);
      }
    }
    assert rest[..|rest|] == rest;
  }

  /** The second loop of `wrap_function_impl`: `, <cast>` per argument, stopping at the first KeyError. */
  method EmitCasts(transforms: map<string, string>, v: Variant, rest: seq<Argument>) returns (r: Result<string>)
    ensures r == CastList(transforms, v, rest)
  {
    var casts := "";
    for i := 0 to |rest|
      invariant CastList(transforms, v, rest[..i]) == Ok(casts)
    {
      assert rest[..i + 1][..i] == rest[..i];
      var c := CallArg(transforms, v, rest[i]);
      if c.Err? {
        CastListErrPropagates(transforms, v, rest, i + 1);
        return Err(c.error);
      }
      casts := casts + ", " + c.value;
    }
    assert rest[..|rest|] == rest;
    r := Ok(casts);
  }

  /** Once a prefix of the cast list fails, the whole list fails with the same error. */
  lemma {:induction false} CastListErrPropagates(transforms: map<string, string>, v: Variant, args: seq<Argument>, i: nat)
    requires i <= |args| && CastList(transforms, v, args[..i]).Err?
    ensures CastList(transforms, v, args) == CastList(transforms, v, args[..i])
    decreases |args| - i
  {
    if i < |args| {
      assert args[..i + 1][..i] == args[..i];
      CastListErrPropagates(transforms, v, args, i + 1);
    } else {
      assert args[..i] == args;
    }
  }
}
