/** The two pieces of logic in camd/agent/base.py: the query-by-committee helper
    `QBC`, which trains a committee of (scaler, regressor) pairs on subsamples
    of a dataset and reports the committee's mean prediction and its spread, and
    the baseline `RandomAgent`, which picks candidates at random.

    The scikit-learn estimators are opaque: a fitted scaler or regressor is
    represented by what it was fitted on, and its `transform` / `predict`
    behaviour is supplied as a `Learners` value. Random draws are parameters. */
module AgentBase {
  import opened Permutations
  import opened Statistics

  type Row = seq<real>
  type Table = seq<Row>

  /** Keyword arguments forwarded to the regressor's constructor. */
  type Params = map<string, string>

  datatype Option<T> = None | Some(value: T)

  datatype Error = ValueError(message: string)

  datatype Result<T> = Success(value: T) | Failure(error: Error)

  /** The regressor class a committee member is built from. */
  datatype Algorithm = LinearRegression | Estimator(name: string)

  /** `cv_score`: NaN until a cross-validated error has been recorded. */
  datatype CvScore = NaN | Score(value: real)

  /** A `StandardScaler` after `fit` on the given rows. */
  datatype Scaler = StandardScaler(fittedOn: Table)

  /** A regressor of `algorithm`, built with `params`, after `fit(inputs, targets)`. */
  datatype Model = Model(algorithm: Algorithm, params: Params, inputs: Table, targets: seq<real>)

  /** One committee entry, the pair `[scaler, model]`. */
  datatype Member = Member(scaler: Scaler, model: Model)

  /** The row-wise behaviour of the fitted estimators: `scaler.transform` and `model.predict`. */
  datatype Learners = Learners(transform: (Scaler, Row) -> Row, predict: (Model, Row) -> real)

  function Min(a: int, b: int): int {
    if a <= b then a else b
  }

  /** Python's `int(r)` on a float: truncation toward zero. */
  function Truncate(r: real): (t: int)
    ensures 0.0 <= r ==> t as real <= r < t as real + 1.0
    ensures r < 0.0 ==> t as real - 1.0 < r <= t as real
  {
    if r >= 0.0 then r.Floor else -((-r).Floor)
  }

  /** The length of `a[:k]` for a list `a` of length n; a negative stop counts from the end. */
  function SliceStop(k: int, n: nat): (m: nat)
    ensures m <= n
  {
    if k >= n then n
    else if k >= 0 then k
    else if n + k >= 0 then n + k
    else 0
  }

  lemma ProductNonNegative(a: real, b: real)
    requires 0.0 <= a && 0.0 <= b
    ensures 0.0 <= a * b
  {
  }

  /** The row indices one committee member is trained on (lines 59-61): the first
      `int(training_fraction * n)` entries of a shuffled `0..n-1`. */
  function SubsampleIndices(shuffle: seq<nat>, fraction: real, n: nat): (idx: seq<nat>)
    requires IsShuffleOfRange(shuffle, n)
    ensures |idx| <= n && AllBelow(idx, n) && Distinct(idx)
    ensures 0.0 <= fraction ==> |idx| == Min(Truncate(fraction * n as real), n)
  {
    ShuffleBounds(shuffle, n);
    ShuffleDistinct(shuffle, n);
    ProductNonNegative(if fraction < 0.0 then 0.0 else fraction, n as real);
    shuffle[..SliceStop(Truncate(fraction * n as real), n)]
  }

  /** With a fraction between 0 and 1 the subsample has exactly
      `int(training_fraction * n)` rows: the slice never reaches past the end. */
  lemma SubsampleSize(shuffle: seq<nat>, fraction: real, n: nat)
    requires IsShuffleOfRange(shuffle, n) && 0.0 <= fraction <= 1.0
    ensures |SubsampleIndices(shuffle, fraction, n)| == Truncate(fraction * n as real)
  {
    FractionOfCount(fraction, n);
  }

  lemma FractionOfCount(fraction: real, n: nat)
    requires 0.0 <= fraction <= 1.0
    ensures 0.0 <= fraction * n as real <= n as real
  {
    ProductNonNegative(fraction, n as real);
    ProductNonNegative(1.0 - fraction, n as real);
    assert (1.0 - fraction) * n as real == n as real - fraction * n as real;
  }

  /** With a fraction of at least 1 every member is trained on all of X, in shuffled order. */
  lemma FullFractionTakesEveryRow<T>(X: seq<T>, shuffle: seq<nat>, fraction: real)
    requires IsShuffleOfRange(shuffle, |X|) && 1.0 <= fraction
    ensures SubsampleIndices(shuffle, fraction, |X|) == shuffle
    ensures multiset(Gather(X, SubsampleIndices(shuffle, fraction, |X|))) == multiset(X)
  {
    ShuffleBounds(shuffle, |X|);
    calc {
      |X| as real;
    <= { ProductNonNegative(fraction - 1.0, |X| as real); }
      fraction * |X| as real;
    }
    assert shuffle[..|X|] == shuffle;
    GatherShuffle(X, shuffle);
  }

  /** A committee member trained on a subsample draws its rows without
      replacement: no row of X occurs in it more often than in X. */
  lemma SubsampleWithoutReplacement<T>(X: seq<T>, shuffle: seq<nat>, fraction: real)
    requires IsShuffleOfRange(shuffle, |X|)
    ensures multiset(Gather(X, SubsampleIndices(shuffle, fraction, |X|))) <= multiset(X)
  {
    var idx := SubsampleIndices(shuffle, fraction, |X|);
    ShuffleBounds(shuffle, |X|);
    GatherPrefixOfShuffle(X, shuffle, |idx|);
  }

  /** One member as lines 67-72 build it: a `StandardScaler` fitted on the
      subsample's rows, and a fresh regressor fitted on the scaled rows against
      the subsample's targets. */
  function FitMember(learners: Learners, algorithm: Algorithm, params: Params,
                     rows: Table, targets: seq<real>): Member
  {
    var scaler := StandardScaler(rows);
    var scaled := seq(|rows|, k requires 0 <= k < |rows| => learners.transform(scaler, rows[k]));
    Member(scaler, Model(algorithm, params, scaled, targets))
  }

  /** One member's prediction vector for X: scale every row with the member's
      scaler, then apply its model. */
  function MemberPrediction(learners: Learners, member: Member, X: Table): (p: seq<real>)
    ensures |p| == |X|
  {
    seq(|X|, r requires 0 <= r < |X| => learners.predict(member.model, learners.transform(member.scaler, X[r])))
  }

  /** The committee's predictions, one vector per member. */
  function Predictions(learners: Learners, committee: seq<Member>, X: Table): (P: seq<seq<real>>)
    ensures |P| == |committee|
    ensures forall m :: 0 <= m < |P| ==> |P[m]| == |X|
  {
    seq(|committee|, m requires 0 <= m < |committee| => MemberPrediction(learners, committee[m], X))
  }

  /** Entry r of every prediction vector: the committee's votes on row r. */
  function Column(P: seq<seq<real>>, r: nat): (votes: seq<real>)
    requires forall m :: 0 <= m < |P| ==> r < |P[m]|
    ensures |votes| == |P|
  {
    seq(|P|, m requires 0 <= m < |P| => P[m][r])
  }

  /** The first loop of `fit` (lines 58-63): one subsample per member, its rows
      `X.iloc[indices]` and targets `y.iloc[indices]`. The indices are below
      `len(X)` by construction, but `fit` does not compare `len(y)` with `len(X)`:
      when an index reaches past the end of y, `y.iloc` raises `IndexError`
      and `ok` is false. */
  method DrawSubsamples(X: Table, y: seq<real>, fraction: real, nMembers: nat, shuffles: seq<seq<nat>>)
    returns (ok: bool, splitIndices: seq<seq<nat>>, splitX: seq<Table>, splitY: seq<seq<real>>)
    requires |shuffles| == nMembers
    requires forall i :: 0 <= i < nMembers ==> IsShuffleOfRange(shuffles[i], |X|)
    ensures ok <==> forall i :: 0 <= i < nMembers ==> AllBelow(SubsampleIndices(shuffles[i], fraction, |X|), |y|)
    ensures ok ==> |splitIndices| == nMembers && |splitX| == nMembers && |splitY| == nMembers
    ensures ok ==> forall i :: 0 <= i < nMembers ==>
      splitIndices[i] == SubsampleIndices(shuffles[i], fraction, |X|) &&
      AllBelow(splitIndices[i], |y|) &&
      splitX[i] == Gather(X, splitIndices[i]) &&
      splitY[i] == Gather(y, splitIndices[i]) &&
      multiset(splitX[i]) <= multiset(X)
  {
    splitIndices, splitX, splitY := [], [], [];
    for i := 0 to nMembers
      invariant |splitIndices| == i && |splitX| == i && |splitY| == i
      invariant forall j :: 0 <= j < i ==>
        splitIndices[j] == SubsampleIndices(shuffles[j], fraction, |X|) &&
        AllBelow(splitIndices[j], |y|) &&
        splitX[j] == Gather(X, splitIndices[j]) &&
        splitY[j] == Gather(y, splitIndices[j]) &&
        multiset(splitX[j]) <= multiset(X)
    {
      var indices := SubsampleIndices(shuffles[i], fraction, |X|);
      if exists k :: 0 <= k < |indices| && indices[k] >= |y| {
        ok := false;
        return;
      }
      SubsampleWithoutReplacement(X, shuffles[i], fraction);
      splitIndices := splitIndices + [indices];
      splitX := splitX + [Gather(X, indices)];
      splitY := splitY + [Gather(y, indices)];
    }
    ok := true;
  }

  /** The second loop of `fit` (lines 65-72): a committee built from empty, one
      member per subsample. */
  method BuildCommittee(learners: Learners, algorithm: Algorithm, params: Params,
                        splitX: seq<Table>, splitY: seq<seq<real>>)
    returns (committee: seq<Member>)
    requires |splitX| == |splitY|
    ensures |committee| == |splitX|
    ensures forall i :: 0 <= i < |committee| ==>
      committee[i].scaler.fittedOn == splitX[i] &&
      committee[i].model.targets == splitY[i] &&
      committee[i].model.algorithm == algorithm && committee[i].model.params == params &&
      committee[i] == FitMember(learners, algorithm, params, splitX[i], splitY[i])
  {
    committee := [];
    for i := 0 to |splitX|
      invariant |committee| == i
      invariant forall j :: 0 <= j < i ==> committee[j] == FitMember(learners, algorithm, params, splitX[j], splitY[j])
    {
      committee := committee + [FitMember(learners, algorithm, params, splitX[i], splitY[i])];
    }
  }

  /** `cross_val_score` with the `neg_mean_absolute_error` scorer reports the
      negated error of each fold; negating their mean (line 84) gives the mean
      absolute error over the folds, which is never negative. */
  lemma CvScoreIsMeanAbsoluteError(foldScores: seq<real>, foldErrors: seq<real>)
    requires |foldScores| == 5 && |foldErrors| == 5
    requires forall k :: 0 <= k < 5 ==> foldScores[k] == -foldErrors[k] && 0.0 <= foldErrors[k]
    ensures -Mean(foldScores) == Mean(foldErrors)
    ensures 0.0 <= -Mean(foldScores)
  {
    MeanNegated(foldErrors, foldScores);
    MeanNonNegative(foldErrors);
  }

  /** Query-by-committee uncertainty estimation (lines 27-96). */
  class QBC {
    const nMembers: nat
    const trainingFraction: real
    const mlAlgorithm: Algorithm
    const mlAlgorithmParams: Params
    const testFullModel: bool

    var committeeModels: seq<Member>
    var trained: bool
    var cvScore: CvScore
    /** `_X` and `_y`: the arguments of the latest call to `fit`. */
    var xData: Option<Table>
    var yData: Option<seq<real>>

    /** The data and the subsample indices the current committee was trained on.
        They differ from `_X`/`_y` after a `fit` that raised. */
    ghost var committeeX: Table
    ghost var committeeY: seq<real>
    ghost var subsamples: seq<seq<nat>>

    /** Member i was fitted on the rows of X and the targets of y at `idx`. */
    ghost predicate TrainedOn(member: Member, idx: seq<nat>, X: Table, y: seq<real>) {
      AllBelow(idx, |X|) && AllBelow(idx, |y|) && Distinct(idx) &&
      member.scaler == StandardScaler(Gather(X, idx)) &&
      member.model.targets == Gather(y, idx) &&
      member.model.algorithm == mlAlgorithm && member.model.params == mlAlgorithmParams
    }

    ghost predicate Valid()
      reads this
    {
      (trained ==>
        |committeeModels| == nMembers && |subsamples| == nMembers &&
        forall i :: 0 <= i < nMembers ==> TrainedOn(committeeModels[i], subsamples[i], committeeX, committeeY)) &&
      (!trained ==> committeeModels == [])
    }

    /** Lines 32-50: store the configuration; an empty, untrained committee. */
    constructor (nMembers: nat, trainingFraction: real, mlAlgorithm: Option<Algorithm> := None,
                 mlAlgorithmParams: Option<Params> := None, testFullModel: bool := true)
      ensures Valid()
      ensures this.nMembers == nMembers && this.trainingFraction == trainingFraction
      ensures this.mlAlgorithm == (if mlAlgorithm.Some? then mlAlgorithm.value else LinearRegression)
      ensures this.mlAlgorithmParams == (if mlAlgorithmParams.Some? then mlAlgorithmParams.value else map[])
      ensures this.testFullModel == testFullModel
      ensures committeeModels == [] && !trained && cvScore == NaN
      ensures xData == None && yData == None
    {
      this.nMembers := nMembers;
      this.trainingFraction := trainingFraction;
      this.mlAlgorithm := if mlAlgorithm.Some? then mlAlgorithm.value else LinearRegression;
      this.mlAlgorithmParams := if mlAlgorithmParams.Some? then mlAlgorithmParams.value else map[];
      this.testFullModel := testFullModel;
      committeeModels := [];
      trained := false;
      cvScore := NaN;
      xData, yData := None, None;
      committeeX, committeeY, subsamples := [], [], [];
    }

    /** Lines 52-84. `shuffles[i]` is the permutation `np.random.shuffle` leaves
        in `a` for member i; `foldScores` is what `cross_val_score` returns for
        the full model (negated mean absolute errors, one per fold). */
    method Fit(X: Table, y: seq<real>, learners: Learners, shuffles: seq<seq<nat>>, foldScores: seq<real>)
      returns (ok: bool)
      requires Valid()
      requires |shuffles| == nMembers
      requires forall i :: 0 <= i < nMembers ==> IsShuffleOfRange(shuffles[i], |X|)
      requires testFullModel ==> |foldScores| == 5
      modifies this
      ensures Valid()
      ensures xData == Some(X) && yData == Some(y)
      ensures ok <==> forall i :: 0 <= i < nMembers ==>
        AllBelow(SubsampleIndices(shuffles[i], trainingFraction, |X|), |y|)
      ensures !ok ==> committeeModels == old(committeeModels) && trained == old(trained) && cvScore == old(cvScore)
      ensures ok ==> trained && |committeeModels| == nMembers
      ensures ok ==> forall i :: 0 <= i < nMembers ==>
        var idx := SubsampleIndices(shuffles[i], trainingFraction, |X|);
        AllBelow(idx, |y|) &&
        committeeModels[i] == FitMember(learners, mlAlgorithm, mlAlgorithmParams, Gather(X, idx), Gather(y, idx))
      ensures ok ==> cvScore == if testFullModel then Score(-Mean(foldScores)) else old(cvScore)
    {
      xData, yData := Some(X), Some(y);
      var splitIndices, splitX, splitY;
      ok, splitIndices, splitX, splitY := DrawSubsamples(X, y, trainingFraction, nMembers, shuffles);
      if !ok {
        return;
      }
      var committee := BuildCommittee(learners, mlAlgorithm, mlAlgorithmParams, splitX, splitY);
      committeeModels := committee;
      trained := true;
      committeeX, committeeY, subsamples := X, y, splitIndices;
      if testFullModel {
        cvScore := Score(-Mean(foldScores));
      }
    }

    /** Lines 86-96: every member predicts every row of X; the result is the
        element-wise mean of the prediction vectors and their population
        standard deviation. Calling it before `fit` fails in the source by
        indexing the empty committee, so a trained committee is required. */
    method Predict(X: Table, learners: Learners, sqrt: real -> real) returns (means: seq<real>, stds: seq<real>)
      requires Valid() && trained && nMembers > 0 && IsSqrt(sqrt)
      ensures |means| == |X| && |stds| == |X|
      ensures var P := Predictions(learners, committeeModels, X);
        forall r :: 0 <= r < |X| ==> means[r] == Mean(Column(P, r)) && stds[r] == PopStd(Column(P, r), sqrt)
      ensures var P := Predictions(learners, committeeModels, X);
        forall r :: 0 <= r < |X| ==> (stds[r] == 0.0 <==> forall m :: 0 <= m < nMembers ==> P[m][r] == P[0][r])
      ensures var P := Predictions(learners, committeeModels, X);
        nMembers == 1 ==> forall r :: 0 <= r < |X| ==> stds[r] == 0.0 && means[r] == P[0][r]
    {
      var predictions: seq<seq<real>> := [];
      for i := 0 to nMembers
        invariant |predictions| == i
        invariant forall m :: 0 <= m < i ==> predictions[m] == MemberPrediction(learners, committeeModels[m], X)
      {
        var member := committeeModels[i];
        predictions := predictions + [MemberPrediction(learners, member, X)];
      }
      assert predictions == Predictions(learners, committeeModels, X);
      means := seq(|X|, r requires 0 <= r < |X| => Mean(Column(predictions, r)));
      stds := seq(|X|, r requires 0 <= r < |X| => PopStd(Column(predictions, r), sqrt));
      forall r | 0 <= r < |X|
        ensures stds[r] == 0.0 <==> forall m :: 0 <= m < nMembers ==> predictions[m][r] == predictions[0][r]
        ensures nMembers == 1 ==> stds[r] == 0.0 && means[r] == predictions[0][r]
      {
        ColumnSpread(predictions, r, sqrt);
      }
    }
  }

  /** The committee's spread on row r is zero exactly when all members agree
      there, and a single member has no spread and is its own mean. */
  lemma ColumnSpread(P: seq<seq<real>>, r: nat, sqrt: real -> real)
    requires |P| > 0 && IsSqrt(sqrt)
    requires forall m :: 0 <= m < |P| ==> r < |P[m]|
    ensures PopStd(Column(P, r), sqrt) == 0.0 <==> forall m :: 0 <= m < |P| ==> P[m][r] == P[0][r]
    ensures |P| == 1 ==> PopStd(Column(P, r), sqrt) == 0.0 && Mean(Column(P, r)) == P[0][r]
  {
    var votes := Column(P, r);
    StdZeroIffConstant(votes, sqrt);
    assert forall m :: 0 <= m < |P| ==> votes[m] == P[m][r];
    if |P| == 1 {
      SingletonNoSpread(votes, sqrt);
    }
  }

  /** Lines 99-122: the baseline agent. `candidateData` and `seedData` are the
      stored constructor arguments, represented by their row labels. */
  datatype RandomAgent<L> = RandomAgent(candidateData: Option<seq<L>>, seedData: Option<seq<L>>, nQuery: nat)
  {
    /** `candidate_data.sample(n_query).index.tolist()`. Sampling without
        replacement takes the first `n_query` entries of a random permutation
        of the row positions, which is `draw`; pandas refuses a sample larger
        than the table with `ValueError`. `seedIndex` is ignored. */
    function GetHypotheses(candidateIndex: seq<L>, draw: seq<nat>, seedIndex: Option<seq<L>> := None): (r: Result<seq<L>>)
      requires IsShuffleOfRange(draw, |candidateIndex|)
      ensures r.Success? <==> nQuery <= |candidateIndex|
      ensures r.Success? ==> |r.value| == nQuery
      ensures r.Success? ==> forall k :: 0 <= k < |r.value| ==> r.value[k] in candidateIndex
      ensures r.Success? ==> multiset(r.value) <= multiset(candidateIndex)
      ensures r.Success? && Distinct(candidateIndex) ==> Distinct(r.value)
    {
      if nQuery > |candidateIndex| then
        Failure(ValueError("Cannot take a larger sample than population when 'replace=False'"))
      else
        ShuffleBounds(draw, |candidateIndex|);
        ShuffleDistinct(draw, |candidateIndex|);
        GatherPrefixOfShuffle(candidateIndex, draw, nQuery);
        GatherDistinct(candidateIndex, draw[..nQuery]);
        Success(Gather(candidateIndex, draw[..nQuery]))
    }
  }
}
