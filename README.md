# Monte Carlo tolerance analysis, modelled in Dafny

This project models the core of `montecarlo.py`, a small utility for Monte Carlo tolerance analysis.

A `Parameter` is a physical quantity with a target value and a symmetric tolerance. Its lower and upper specification limits are `target - tolerance` and `target + tolerance`. It also holds an array of `TRIALS` (1,000,000) random variates.

The variates are generated lazily. The first read derives a standard deviation from the limits and the process capability `CP` (1.33). It then draws from a normal distribution around the target and stores the draw through the setter. The setter accepts only arrays of exactly `TRIALS` elements. Later reads return the cached array.

The functions `above` and `below` give the parts per million (ppm) of a sample array that lie strictly above a maximum or strictly below a minimum.

Files:
- `wrappers.dfy` (module `Wrappers`) holds the `Option`, `Result` and `Outcome` datatypes. They stand in for Python's unset attribute and its exceptions.
- `parameter.dfy` (module `MonteCarlo`) holds `TRIALS`, `CP` and the `Parameter` class. `Parameter` has fields `name`, `lsl`, `target` and `usl`, plus the cache `rvs: Option<seq<real>>`. The ghost field `draws` counts the calls of `norm.rvs`, including calls that raise a domain error before the sampler is applied. The ghost predicate `Valid()` states that a cached array always has `TRIALS` elements. Both methods preserve it.
- `tails.dfy` (module `TailStats`) holds `Above` and `Below`. In the source they sit in `montecarlo.py` beside `Parameter`; the model gives them their own module because they do not touch a `Parameter`. They are built on `Where`, a model of numpy's boolean-mask selection `arr[arr > t]`. The file also holds the lemmas that relate the two functions to index-set fractions, to each other and to their thresholds.

Modelling decisions:
- The normal-distribution draw (`norm.rvs`) is a `Sampler` parameter of the getter, of type `(mean, std, count) -> seq<real>`. The model assumes nothing about what it returns, not even its length. Each read may be passed a different sampler, because real draws differ from call to call. This is what gives idempotence its content: a second read ignores its sampler and returns the first array.
- If a sampler returned the wrong number of variates, the setter would reject them. The getter would then raise the same `ValueError` and leave the cache unset. The model keeps that path.
- Numbers are exact `real`s, and the ppm value is exactly `1e6 * count / size`.
- The sizes in `above` and `below` are Python integers, so an empty array raises `ZeroDivisionError`. The model returns `Failure(ZeroDivisionError)` in that case.
- The standard deviation follows the code at `montecarlo.py:66`, which is `(usl - lsl) / (6 * CP)`. For the symmetric limits the constructor builds, this equals `min(usl - target, target - lsl) / (3 * CP)`, the tighter one-sided distance over `3 * CP`. `SymmetricSigma` proves that both equal `tolerance / (3 * CP)`, the value the unit test expects.
- `norm.rvs` refuses a negative scale with a `ValueError` before drawing anything. A negative tolerance gives a negative derived deviation, so the first read of such a parameter raises. `NormRvs` models that check as `DomainError`, and the getter passes it on with the cache still unset.
- The constructor takes `(name, target, tolerance)` with a required name, as the code does.

## Model

| member | source | states |
|---|---|---|
| `MonteCarlo.Parameter.constructor` | montecarlo.py:40-49 | `lsl = target - tolerance` and `usl = target + tolerance`. `name` and `target` are stored unchanged and the variates are unset. A non-negative tolerance gives `lsl <= target <= usl`. |
| `MonteCarlo.Sigma` | montecarlo.py:66 | The derived standard deviation is positive, zero or negative exactly when `lsl` is below, equal to or above `usl`. When it is non-zero, a process with that deviation has capability index `(usl - lsl) / 6σ` equal to `CP`. |
| `MonteCarlo.SymmetricSigma` | montecarlo.py:130 | For limits `target ± tolerance`, the derived deviation equals `tolerance / (3 * CP)` and also the smaller one-sided distance from the target over `3 * CP`. It is non-negative for a non-negative tolerance, negative for a negative one, and zero exactly when the tolerance is zero. |
| `MonteCarlo.NormRvs` | montecarlo.py:68 | The draw fails with `DomainError` exactly when the scale is negative. Otherwise it is whatever the sampler returns for that mean, scale and size. |
| `MonteCarlo.Parameter.SetRvs` | montecarlo.py:71-79 | Succeeds exactly when the array has `TRIALS` elements, and then the cache holds that array. Otherwise it fails with a `ValueError` that names `TRIALS`, and the cache is left as it was. No other field changes. |
| `MonteCarlo.Parameter.Rvs` | montecarlo.py:51-69 | When variates are cached, returns them without drawing or changing anything. Otherwise it calls `norm.rvs` once with mean `target` and the derived deviation. A negative deviation makes that call raise `DomainError` and leaves the cache unset. Any other draw is stored through the setter. A draw of size `TRIALS` is cached and returned; any other size raises `ValueError` and the cache stays unset. A successful read always returns exactly `TRIALS` variates, which are what is cached. |
| `MonteCarlo.ReadTwice` | montecarlo.py:59-69 | When the first of two successive reads succeeds, the second returns the same array even when it is given a different sampler, that array stays cached, and `norm.rvs` is called at most once. An unset cache with a non-negative deviation and a sampler that returns `TRIALS` variates makes the first read succeed. Variates already cached are what both reads return, with no call of `norm.rvs`, whatever the limits. With an unset cache, a negative deviation makes both reads raise `DomainError`. Name, limits and target do not change. |
| `MonteCarlo.AssignThenRead` | montecarlo.py:75-79 | Assigning `TRIALS` variates succeeds, and afterwards they are cached and the next read returns them verbatim with no call of `norm.rvs`. Any other size fails with a `ValueError`; a previously cached array is then still cached and is what the next read returns. Only the cache and the call count can change: name, limits and target stay. |
| `MonteCarlo.DegenerateParameter` | montecarlo.py:46-49 | A parameter built with zero tolerance has `lsl = target = usl` and a zero derived standard deviation. |
| `TailStats.Where` | montecarlo.py:96 | Mask selection `arr[mask]` keeps no more elements than the array has. Every element it keeps satisfies the mask and comes from the array. |
| `TailStats.WhereCountsKept` | montecarlo.py:96 | The `.size` of a mask selection equals the number of positions whose element the mask keeps. |
| `TailStats.Above` | montecarlo.py:94-96 | Fails with `ZeroDivisionError` exactly when the array is empty. Otherwise the result lies in `[0, 1e6]`. |
| `TailStats.Below` | montecarlo.py:99-101 | Fails with `ZeroDivisionError` exactly when the array is empty. Otherwise the result lies in `[0, 1e6]`. |
| `TailStats.Ppm` | montecarlo.py:96 | `1e6 * count / size` lies in `[0, 1e6]`. It is zero exactly when the count is zero and `1e6` exactly when the count is the whole size. |
| `TailStats.AboveIsFraction` | montecarlo.py:94-96 | For a non-empty array, `above(arr, m)` equals 1e6 times the number of positions `i` with `arr[i] > m`, divided by the length of `arr`. |
| `TailStats.BelowIsFraction` | montecarlo.py:99-101 | For a non-empty array, `below(arr, m)` equals 1e6 times the number of positions `i` with `arr[i] < m`, divided by the length of `arr`. |
| `TailStats.AboveExtremes` | montecarlo.py:94-96 | `above` is 0 exactly when no element exceeds the maximum. It is `1e6` exactly when every element does. |
| `TailStats.BelowExtremes` | montecarlo.py:99-101 | `below` is 0 exactly when no element is under the minimum. It is `1e6` exactly when every element is. |
| `TailStats.AboveNonIncreasing` | montecarlo.py:94-96 | Raising the maximum never raises `above`. |
| `TailStats.BelowNonDecreasing` | montecarlo.py:99-101 | Raising the minimum never lowers `below`. |
| `TailStats.AboveBelowComplement` | montecarlo.py:94-101 | With the same threshold, `above + below <= 1e6`, because both comparisons are strict. The sum is exactly `1e6` if and only if no element equals the threshold. |
| `TailStats.AboveLinspaceExample` | montecarlo.py:136-141 | For 1000 evenly spaced values from 0 to 1000, `above(arr, 900)` is exactly 100000. |

## Left out

- The statistical quality of `norm.rvs` is not modelled. It is a foreign SciPy call: the model does not state or prove the mean or standard deviation of the variates, and has no randomness beyond an arbitrary sampler per read.
- The `isinstance(variates, np.ndarray)` test in the setter is dropped. In Dafny the variates are always a `seq<real>`, so only the size test remains.
- Floating-point rounding is not modelled. This covers the ppm division, the standard-deviation formula and `CP = 1.33`. Numbers are exact reals.
- NaN is not modelled. In Python a NaN element or threshold makes both `>` and `<` false. Then the "0 exactly when every element is at most the maximum" case of `AboveExtremes` and the equality case of `AboveBelowComplement` do not carry over to floats.
- MonteCarlo.Parameter.SetRvs and MonteCarlo.Parameter.Rvs: aliasing is not modelled. The setter stores the caller's numpy array object and the getter hands that same object back, so writing into it in place changes what later reads return. In the model the cache is a value: "verbatim" and "the same array" mean equal values, not the same object.
- MonteCarlo.Parameter.SetRvs: array shape is not modelled. `variates.size == TRIALS` also accepts a multi-dimensional array with `TRIALS` elements in all, such as 1000 by 1000. A `seq<real>` is one-dimensional, so the model checks only its length.
- `Parameter.hist` (matplotlib plotting) is left out. Its only effect on the model would be a read of the variates, which can trigger generation.
- `describe` is left out. It only prints a floating-point mean, a sample standard deviation (`ddof=1`) and, when given, ppm below `lsl` and above `usl`. The lsl line and the usl line are printed only when the matching argument is not `None`.
- Python attribute assignment to `name`, `lsl`, `target` or `usl` after construction is not modelled as an operation. The fields are mutable, and the getter reads whatever `lsl`, `usl` and `target` hold at the time of the read.
- The unit-test classes are not modelled as code. Their cases appear as `SymmetricSigma` and `AboveLinspaceExample`.
- `example.py` is not part of this model. It is a demo script of float arithmetic, plotting and printing.
- Concurrent first reads are not modelled. The check-then-set in the getter assumes a single thread.
