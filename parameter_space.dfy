/** The parameter space of a run: the ordered gene list of the configuration,
    mapped one gene at a time to the bounded parameter specifications the
    search algorithms consume (Optimizer.cs, lines 23-26). */
module ParameterSpace {
  import opened Wrappers

  /** One optimisable dimension. Each bound comes as an integer or a decimal
      (either may be absent); the precision decides whether the dimension is
      continuous. Decimal bounds are exact, so they are modelled as `real`. */
  datatype Gene = Gene(
    minInt: Option<int>,
    maxInt: Option<int>,
    minDecimal: Option<real>,
    maxDecimal: Option<real>,
    precision: int)

  datatype Transform = Linear

  datatype ParameterType = Continuous | Discrete

  /** The algorithm-facing description of one dimension. */
  datatype ParameterSpec = MinMaxParameterSpec(
    min: real,
    max: real,
    transform: Transform,
    parameterType: ParameterType)

  /** `dec ?? int.Value`: the decimal bound when it is present, otherwise the
      integer bound; `None` stands for the exception `.Value` raises on a
      missing integer bound. */
  function ResolveBound(dec: Option<real>, integer: Option<int>): (r: Option<real>)
    ensures r.Some? <==> dec.Some? || integer.Some?
    ensures dec.Some? ==> r == dec
    ensures dec.None? && integer.Some? ==> r == Some(integer.value as real)
  {
    match dec
    case Some(d) => Some(d)
    case None => if integer.Some? then Some(integer.value as real) else None
  }

  /** A gene from which a specification can be built: both its minimum and its
      maximum are given in at least one of the two forms. */
  predicate HasBounds(g: Gene)
  {
    (g.minDecimal.Some? || g.minInt.Some?) && (g.maxDecimal.Some? || g.maxInt.Some?)
  }

  /** Reference definition of "p is the specification derived from g", stated
      field by field: each bound prefers the decimal form, the transform is
      linear, and a positive precision (and only that) makes it continuous. */
  ghost predicate DerivedFrom(p: ParameterSpec, g: Gene)
  {
    && (g.minDecimal.Some? ==> p.min == g.minDecimal.value)
    && (g.minDecimal.None? ==> g.minInt.Some? && p.min == g.minInt.value as real)
    && (g.maxDecimal.Some? ==> p.max == g.maxDecimal.value)
    && (g.maxDecimal.None? ==> g.maxInt.Some? && p.max == g.maxInt.value as real)
    && p.transform == Linear
    && (p.parameterType == Continuous <==> g.precision > 0)
  }

  /** The lambda of the `Select`: one gene to one specification, failing when a
      bound is missing in both forms. The minimum is resolved first, but both
      failures raise the same exception, so one `None` stands for either. */
  function ToSpec(g: Gene): (r: Option<ParameterSpec>)
    ensures r.Some? <==> HasBounds(g)
    ensures r.Some? ==> DerivedFrom(r.value, g)
  {
    var min := ResolveBound(g.minDecimal, g.minInt);
    var max := ResolveBound(g.maxDecimal, g.maxInt);
    if min.None? || max.None? then None
    else Some(MinMaxParameterSpec(min.value, max.value, Linear,
                                  if g.precision > 0 then Continuous else Discrete))
  }

  /** A gene determines its specification: any two specifications derived
      from the same gene are equal. */
  lemma DerivedUnique(p: ParameterSpec, q: ParameterSpec, g: Gene)
    requires DerivedFrom(p, g) && DerivedFrom(q, g)
    ensures p == q
  {
  }

  /** `ToSpec` returns exactly the specification the reference definition
      describes, and returns one whenever some specification fits it. */
  lemma ToSpecCharacterized(g: Gene, p: ParameterSpec)
    ensures ToSpec(g) == Some(p) <==> DerivedFrom(p, g)
  {
  }

  /** `genes.Select(ToSpec).ToArray()`: the whole array is built before the
      run goes on, so one gene without a bound fails the construction. */
  function BuildParameterSpace(genes: seq<Gene>): (r: Option<seq<ParameterSpec>>)
    ensures r.Some? <==> forall i :: 0 <= i < |genes| ==> HasBounds(genes[i])
    ensures r.Some? ==> |r.value| == |genes|
    ensures r.Some? ==> forall i :: 0 <= i < |genes| ==> DerivedFrom(r.value[i], genes[i])
  {
    if genes == [] then Some([])
    else
      match ToSpec(genes[0])
      case None => None
      case Some(p) =>
        match BuildParameterSpace(genes[1..])
        case None => None
        case Some(ps) => Some([p] + ps)
  }

  /** The full characterisation of a successful construction: the result is
      the one sequence, index for index, of specifications derived from the
      genes. */
  lemma BuildCharacterized(genes: seq<Gene>, ps: seq<ParameterSpec>)
    ensures BuildParameterSpace(genes) == Some(ps) <==>
            |ps| == |genes| && forall i :: 0 <= i < |genes| ==> DerivedFrom(ps[i], genes[i])
  {
    if |ps| == |genes| && forall i :: 0 <= i < |genes| ==> DerivedFrom(ps[i], genes[i]) {
      forall i | 0 <= i < |genes| ensures HasBounds(genes[i]) {
        assert DerivedFrom(ps[i], genes[i]);
      }
      var built := BuildParameterSpace(genes);
      forall i | 0 <= i < |genes| ensures built.value[i] == ps[i] {
        DerivedUnique(built.value[i], ps[i], genes[i]);
      }
      assert built.value == ps;
    }
  }

  /** The mapping works gene by gene: building a concatenation is
      concatenating the builds, and it fails when either half fails. */
  lemma {:induction false} BuildAppend(a: seq<Gene>, b: seq<Gene>)
    ensures BuildParameterSpace(a + b) ==
            match (BuildParameterSpace(a), BuildParameterSpace(b))
            case (Some(x), Some(y)) => Some(x + y)
            case _ => None
  {
    if a == [] {
      assert a + b == b;
      match BuildParameterSpace(b)
      case Some(y) => assert [] + y == y;
      case None =>
    } else {
      assert (a + b)[0] == a[0];
      assert (a + b)[1..] == a[1..] + b;
      BuildAppend(a[1..], b);
      match (ToSpec(a[0]), BuildParameterSpace(a[1..]), BuildParameterSpace(b))
      case (Some(p), Some(x), Some(y)) =>
        assert [p] + (x + y) == ([p] + x) + y;
      case _ =>
    }
  }

  /** The parameter type of every built specification follows the sign of its
      gene's precision, zero and negative precisions included, and every
      transform is linear. */
  lemma BuiltTypes(genes: seq<Gene>, ps: seq<ParameterSpec>, i: int)
    requires BuildParameterSpace(genes) == Some(ps)
    requires 0 <= i < |genes|
    ensures ps[i].transform == Linear
    ensures ps[i].parameterType == Discrete <==> genes[i].precision <= 0
  {
  }
}
