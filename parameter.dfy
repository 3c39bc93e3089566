/**
 * A Monte Carlo parameter: a nominal target with a symmetric tolerance band,
 * and a lazily generated, size-checked array of random variates.
 */
module MonteCarlo {
  import opened Wrappers

  /** Number of samples for a Monte Carlo simulation. */
  const TRIALS: nat := 1000000

  /** Default process capability. */
  const CP: real := 1.33

  /**
   * The ValueErrors a read or an assignment of the variates can raise: the
   * setter's size check, which names the size required, and the normal
   * distribution's refusal of a negative scale.
   */
  datatype ValueError = WrongSize(required: nat) | DomainError

  /**
   * A normal-distribution sampler: given a mean, a non-negative standard
   * deviation and a count, it returns some array of variates. The model
   * assumes nothing about what it returns, not even its length; each read of
   * the variates may be served by a different sampler, as successive random
   * draws differ.
   */
  type Sampler = (real, real, nat) -> seq<real>

  /**
   * norm.rvs(loc, scale, size): a negative scale is a domain error, raised
   * before anything is drawn; otherwise the sampler's draw.
   */
  function NormRvs(sample: Sampler, loc: real, scale: real, size: nat): (r: Result<seq<real>, ValueError>)
    ensures r.Failure? <==> scale < 0.0
    ensures r.Failure? ==> r.error == DomainError
    ensures r.Success? ==> r.value == sample(loc, scale, size)
  {
    if scale < 0.0 then Failure(DomainError) else Success(sample(loc, scale, size))
  }

  /** The smaller of two reals. */
  function Min(a: real, b: real): real
  {
    if a <= b then a else b
  }

  /** The process capability index of a process with standard deviation sigma. */
  function Capability(lsl: real, usl: real, sigma: real): real
    requires sigma != 0.0
  {
    (usl - lsl) / (6.0 * sigma)
  }

  /**
   * The standard deviation the getter derives from the specification limits:
   * the one whose process just meets the capability CP.
   */
  function Sigma(lsl: real, usl: real): (s: real)
    ensures s > 0.0 <==> lsl < usl
    ensures s == 0.0 <==> lsl == usl
    ensures s < 0.0 <==> usl < lsl
    ensures s != 0.0 ==> Capability(lsl, usl, s) == CP
  {
    (usl - lsl) / (6.0 * CP)
  }

  /**
   * For limits built from a symmetric tolerance, the derived standard
   * deviation is the tolerance over 3 * CP, which is also the tighter of the
   * two one-sided distances from the target over 3 * CP.
   */
  lemma SymmetricSigma(target: real, tolerance: real)
    ensures Sigma(target - tolerance, target + tolerance) == tolerance / (3.0 * CP)
    ensures Sigma(target - tolerance, target + tolerance)
         == Min((target + tolerance) - target, target - (target - tolerance)) / (3.0 * CP)
    ensures tolerance >= 0.0 ==> Sigma(target - tolerance, target + tolerance) >= 0.0
    ensures tolerance < 0.0 ==> Sigma(target - tolerance, target + tolerance) < 0.0
    ensures tolerance == 0.0 <==> Sigma(target - tolerance, target + tolerance) == 0.0
  {
  }

  class Parameter {
    var name: string
    var lsl: real
    var target: real
    var usl: real
    /** The cached variates: None until first read or assigned. */
    var rvs: Option<seq<real>>
    /**
     * How many times norm.rvs has been called, including calls that raise
     * the domain error before the sampler is applied.
     */
    ghost var draws: nat

    /** Cached variates always have exactly TRIALS elements. */
    ghost predicate Valid()
      reads this
    {
      rvs.Some? ==> |rvs.value| == TRIALS
    }

    constructor (name: string, target: real, tolerance: real)
      ensures Valid()
      ensures this.name == name && this.target == target
      ensures lsl == target - tolerance && usl == target + tolerance
      ensures tolerance >= 0.0 ==> lsl <= this.target <= usl
      ensures rvs == None && draws == 0
    {
      this.name := name;
      lsl := target - tolerance;
      this.target := target;
      usl := target + tolerance;
      rvs := None;
      draws := 0;
    }

    /**
     * The setter: variates of any size other than TRIALS raise a ValueError
     * and leave the cache as it was; otherwise they replace the cache.
     */
    method SetRvs(variates: seq<real>) returns (outcome: Outcome<ValueError>)
      requires Valid()
      modifies this`rvs
      ensures Valid()
      ensures outcome.Pass? <==> |variates| == TRIALS
      ensures outcome.Fail? ==> outcome.error == WrongSize(TRIALS) && rvs == old(rvs)
      ensures outcome.Pass? ==> rvs == Some(variates)
    {
      if |variates| != TRIALS {
        return Fail(WrongSize(TRIALS));
      }
      rvs := Some(variates);
      return Pass;
    }

    /**
     * The getter: cached variates are returned as they are, with no new draw.
     * Otherwise TRIALS variates are drawn around the target with the derived
     * standard deviation and stored through the validating setter; a negative
     * derived deviation raises the draw's domain error instead.
     */
    method Rvs(sample: Sampler) returns (r: Result<seq<real>, ValueError>)
      requires Valid()
      modifies this`rvs, this`draws
      ensures Valid()
      ensures old(rvs).Some? ==> r == Success(old(rvs).value) && rvs == old(rvs) && draws == old(draws)
      ensures old(rvs).None? ==> draws == old(draws) + 1
      ensures old(rvs).None? && Sigma(lsl, usl) < 0.0 ==> r == Failure(DomainError) && rvs == None
      ensures old(rvs).None? && Sigma(lsl, usl) >= 0.0 ==>
        var drawn := sample(target, Sigma(lsl, usl), TRIALS);
        if |drawn| == TRIALS then r == Success(drawn) && rvs == Some(drawn)
        else r == Failure(WrongSize(TRIALS)) && rvs == None
      ensures r.Success? ==> |r.value| == TRIALS && rvs == Some(r.value)
    {
      if rvs.Some? {
        return Success(rvs.value);
      }
      var std := Sigma(lsl, usl);
      draws := draws + 1;
      var drawn := NormRvs(sample, target, std, TRIALS);
      if drawn.Failure? {
        return Failure(drawn.error);
      }
      var outcome := SetRvs(drawn.value);
      if outcome.Fail? {
        return Failure(outcome.error);
      }
      return Success(rvs.value);
    }
  }

  /**
   * When the first of two reads in a row succeeds, both return the same
   * variates even when the second read is offered a different sampler, and
   * norm.rvs is called at most once. Variates already cached are what both
   * reads return, whatever the limits. With an unset cache, a negative
   * derived deviation makes both reads raise the domain error.
   */
  method ReadTwice(p: Parameter, first: Sampler, second: Sampler)
    returns (a: Result<seq<real>, ValueError>, b: Result<seq<real>, ValueError>)
    requires p.Valid()
    modifies p`rvs, p`draws
    ensures p.Valid()
    ensures a.Success? ==> b == a && p.rvs == Some(a.value) && p.draws <= old(p.draws) + 1
    ensures (old(p.rvs).None? && Sigma(p.lsl, p.usl) >= 0.0
             && |first(p.target, Sigma(p.lsl, p.usl), TRIALS)| == TRIALS) ==> a.Success?
    ensures old(p.rvs).Some? ==> a == b == Success(old(p.rvs).value) && p.draws == old(p.draws)
    ensures old(p.rvs).None? && Sigma(p.lsl, p.usl) < 0.0 ==> a == b == Failure(DomainError)
    ensures p.name == old(p.name) && p.lsl == old(p.lsl) && p.target == old(p.target) && p.usl == old(p.usl)
  {
    a := p.Rvs(first);
    b := p.Rvs(second);
  }

  /**
   * Assigning variates of size TRIALS succeeds and the next read returns them
   * verbatim without drawing; any other size fails and the read that follows
   * sees the cache as it was before.
   */
  method AssignThenRead(p: Parameter, variates: seq<real>, sample: Sampler)
    returns (outcome: Outcome<ValueError>, r: Result<seq<real>, ValueError>)
    requires p.Valid()
    modifies p`rvs, p`draws
    ensures p.Valid()
    ensures |variates| == TRIALS ==>
      outcome == Pass && r == Success(variates) && p.rvs == Some(variates) && p.draws == old(p.draws)
    ensures |variates| != TRIALS ==> outcome == Fail(WrongSize(TRIALS))
    ensures |variates| != TRIALS && old(p.rvs).Some? ==>
      r == Success(old(p.rvs).value) && p.rvs == old(p.rvs) && p.draws == old(p.draws)
    ensures p.name == old(p.name) && p.lsl == old(p.lsl) && p.target == old(p.target) && p.usl == old(p.usl)
  {
    outcome := p.SetRvs(variates);
    r := p.Rvs(sample);
  }

  /** A parameter built with zero tolerance has a zero derived standard deviation. */
  method DegenerateParameter(name: string, target: real) returns (p: Parameter, std: real)
    ensures p.Valid() && p.rvs == None
    ensures p.lsl == p.target == p.usl == target
    ensures std == Sigma(p.lsl, p.usl) && std == 0.0
  {
    p := new Parameter(name, target, 0.0);
    std := Sigma(p.lsl, p.usl);
  }
}
