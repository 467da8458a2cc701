# CAMD agent base: query-by-committee and the random agent

This project is a Dafny model of `camd/agent/base.py` from CAMD (Computational Autonomy for Materials
Discovery), with proofs about that model. The file has two parts:

- `QBC` estimates uncertainty for regressors that cannot report it themselves.
  - `fit` trains a committee of `n_members` (scaler, regressor) pairs. Each pair is trained on a
    random subsample of the data, made of the first `int(training_fraction * len(X))` entries of
    a shuffled row range.
  - If `test_full_model` is set, `fit` also records the full model's 5-fold cross-validated mean
    absolute error in `cv_score`.
  - `predict` returns, for every row, the mean of the members' predictions and their
    population standard deviation.
- `RandomAgent` is the baseline agent. `get_hypotheses` returns the labels of `n_query`
  candidates sampled without replacement.

The model has three modules:

- `Permutations` (`permutations.dfy`) covers `np.arange`, its shuffles and positional selection
  (`iloc`). It proves that a prefix of a shuffle draws without replacement, and that a whole
  shuffle rearranges the data.
- `Statistics` (`statistics.dfy`) covers `np.mean` and `np.std` (ddof 0) over exact reals.
- `AgentBase` (`agent_base.dfy`) holds:
  - the class `QBC`, whose fields are the object's attributes, with `Fit` and `Predict` as
    methods that change or read them;
  - the loops of `fit` as the methods `DrawSubsamples` and `BuildCommittee`;
  - `RandomAgent` as a datatype with the function `GetHypotheses`.

Several things the code does are not visible as values, so the model takes them as parameters:

- **Random draws.** Each `np.random.shuffle` result is a parameter. So is the permutation that
  `DataFrame.sample` takes a prefix of.
- **scikit-learn estimators.** A fitted `StandardScaler` or regressor is represented by what it
  was fitted on. Their row-wise `transform` and `predict` come in a `Learners` value.
- **Cross-validation.** `cross_val_score`'s per-fold scores are a parameter.
- **Square root.** `sqrt` is a parameter characterised by `IsSqrt`.

`fit` sets `_X` and `_y` before anything that can fail. A `fit` that raises `IndexError` therefore
leaves them describing data that the committee was not trained on. The class records the data
the committee was actually trained on in ghost fields, and its invariant `Valid` refers to those
fields.

## Model

| member | source | states |
|---|---|---|
| Permutations.Arange | camd/agent/base.py:59 | `np.arange(n)` has length n and holds i at position i |
| Permutations.ShuffleBounds | camd/agent/base.py:59-61 | a shuffle of `arange(n)` has length n and every entry is a valid row index |
| Permutations.ShuffleDistinct | camd/agent/base.py:59-61 | a shuffle of `arange(n)` repeats no index |
| Permutations.GatherShuffle | camd/agent/base.py:59-62 | selecting rows along a whole shuffle yields every row exactly as often as it occurs (a permutation of the data) |
| Permutations.GatherPrefixOfShuffle | camd/agent/base.py:61-63 | selecting rows along a prefix of a shuffle takes no row more often than it occurs (sampling without replacement) |
| Permutations.GatherDistinct | camd/agent/base.py:122 | distinct positions into distinct labels select distinct labels |
| Statistics.PopStd | camd/agent/base.py:94 | the standard deviation is non-negative and its square is the population variance |
| Statistics.MeanBounds | camd/agent/base.py:95 | the mean lies between any lower and any upper bound of the values |
| Statistics.MeanNonNegative | camd/agent/base.py:84 | non-negative values have a non-negative mean |
| Statistics.MeanNegated | camd/agent/base.py:84 | negating every value negates the mean |
| Statistics.VarianceZeroIffConstant | camd/agent/base.py:94 | the population variance is zero if and only if all values are equal |
| Statistics.StdZeroIffConstant | camd/agent/base.py:94 | the standard deviation is zero if and only if all values are equal |
| Statistics.SingletonNoSpread | camd/agent/base.py:94-95 | one value is its own mean, with zero variance and zero standard deviation |
| AgentBase.Truncate | camd/agent/base.py:61 | `int()` truncates toward zero: the result is within one of the argument, on the side of zero |
| AgentBase.SubsampleIndices | camd/agent/base.py:59-61 | a member's subsample indices are distinct, below `len(X)`, and for a non-negative fraction number `min(int(fraction * len(X)), len(X))` |
| AgentBase.SubsampleSize | camd/agent/base.py:61 | for a fraction between 0 and 1 the subsample has exactly `int(fraction * len(X))` rows |
| AgentBase.FullFractionTakesEveryRow | camd/agent/base.py:59-62 | with a fraction of at least 1 the subsample is the whole shuffle, and its rows are a permutation of X |
| AgentBase.SubsampleWithoutReplacement | camd/agent/base.py:61-63 | a member's rows are drawn from X without replacement |
| AgentBase.DrawSubsamples | camd/agent/base.py:58-63 | succeeds if and only if every member's indices are valid for y; then it gives one subsample per member, with rows `X.iloc[idx]` and targets `y.iloc[idx]`, drawn without replacement |
| AgentBase.BuildCommittee | camd/agent/base.py:65-72 | one member per subsample, in order: its scaler is fitted on that subsample's rows, and its model, of the configured algorithm and parameters, on its targets |
| AgentBase.CvScoreIsMeanAbsoluteError | camd/agent/base.py:82-84 | negating the mean of the negated fold errors gives the mean absolute error, which is non-negative |
| AgentBase.QBC.constructor | camd/agent/base.py:32-50 | stores the configuration, defaulting to `LinearRegression` and `{}`; empty untrained committee, NaN score, no data |
| AgentBase.QBC.Fit | camd/agent/base.py:52-84 | records X and y. On an `IndexError` the committee, `trained` and `cv_score` are unchanged. Otherwise: `n_members` members, each fitted on its subsample; trained; `cv_score` is minus the mean fold score when the full model is tested, and unchanged when it is not; the committee invariant holds |
| AgentBase.QBC.Predict | camd/agent/base.py:86-96 | one mean and one std per row of X, namely the mean and population std of the members' predictions; the std is zero exactly when all members agree on that row; a one-member committee has zero std and its own prediction as mean |
| AgentBase.ColumnSpread | camd/agent/base.py:94-95 | the spread of the committee's votes on a row is zero if and only if all members agree there |
| AgentBase.RandomAgent.GetHypotheses | camd/agent/base.py:111-122 | fails with `ValueError` exactly when `n_query` exceeds the number of candidates; otherwise `n_query` labels from the candidates, none taken more often than it occurs, and distinct when the index is |

## Left out

- scikit-learn's `StandardScaler`, the regressors and `cross_val_score` are external code. Only what each fitted object was fitted on is modelled, and their arithmetic is a parameter (`Learners`, `foldScores`).
- Errors raised inside scikit-learn are not modelled. Examples: an empty subsample, fewer than five rows for `KFold(5)`, non-numeric data. An error in the cross-validation after line 74 would leave the committee trained with the old `cv_score`.
- The full model fitted at lines 78-81 is not kept by the source, so it is not modelled. Only the resulting score is.
- Random number generation is not modelled. Every shuffle and every sample is a parameter constrained to be a permutation of the row positions.
- Floating point is not modelled; all arithmetic is over exact reals. For example, `0.29 * 100` is `28.999999999999996` in floats, so `int()` gives 28 where the model gives 29.
- AgentBase.QBC.Predict requires a trained committee with at least one member. Before `fit`, the source fails by indexing the empty committee. With zero members, numpy returns NaN scalars, which the model does not represent.
- AgentBase.QBC.Fit takes the shuffles as a parameter. It therefore requires `n_members` to be a natural number. A negative or non-integer `n_members` is not modelled.
- The progress bar (`tqdm`) is not modelled; it is output only.
- `HypothesisAgent`, the abstract base class at lines 12-24, has no behaviour and is not modelled.
- `RandomAgent`'s constructor and its constant `cv_score = nan` are not modelled. Its stored `candidate_data` and `seed_data` are fields of the datatype, and `get_hypotheses` ignores them, as the source does.
- AgentBase.RandomAgent.GetHypotheses takes `n_query` as a natural number. A negative `n_query`, which pandas rejects, is not modelled.
- The callers in the rest of CAMD (the campaign loop, the experiment and analysis modules) are not part of this model.
