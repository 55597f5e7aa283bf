/** Resolving a user-typed prefix to one checkpoint (Go's loadCheckpoint).
    The project's lookups are not part of this model; they are the oracles
    of a Project value. */
module Checkpoints {
  import opened Wrappers

  /** An experiment: its ID and its typed parameters. */
  datatype Experiment<V> = Experiment(id: string, params: map<string, V>)

  /** A checkpoint: its ID, the ID of the experiment it belongs to, and its
      typed metrics. */
  datatype Checkpoint<V> = Checkpoint(id: string, experimentId: string, metrics: map<string, V>)

  /** What a prefix resolves to: a checkpoint or an experiment. */
  datatype Match<V> = CheckpointMatch(checkpoint: Checkpoint<V>) | ExperimentMatch(experiment: Experiment<V>)

  datatype Error =
    | Failed(message: string)             // an error returned by the project
    | NoCheckpoints(experimentShortId: string)  // the experiment has no checkpoints

  /** The text of an error, as the command reports it; the no-checkpoints
      message names the experiment's short ID between double quotes. */
  function Message(e: Error): (text: string)
    ensures e.NoCheckpoints? ==>
      var n := |NoCheckpointsOpening|;
      |text| > n + |e.experimentShortId| &&
      text[n - 1] == '"' && text[n..n + |e.experimentShortId|] == e.experimentShortId &&
      text[n + |e.experimentShortId|] == '"'
  {
    match e
    case Failed(m) => m
    case NoCheckpoints(id) =>
      var text := NoCheckpointsOpening + id + NoCheckpointsClosing;
      assert text[|NoCheckpointsOpening| + |id|] == NoCheckpointsClosing[0];
      text
  }

  const NoCheckpointsOpening := "Could not pick best checkpoint for experiment \""
  const NoCheckpointsClosing := "\": it does not have any checkpoints."

  /** The project operations loadCheckpoint and printDiff call, each a total
      function from its argument to a value, an absent value, or an error. */
  datatype Project<V> = Project(
    checkpointOrExperimentFromPrefix: string -> Result<Match<V>, Error>,
    experimentBestCheckpoint: string -> Result<Option<Checkpoint<V>>, Error>,
    experimentLatestCheckpoint: string -> Result<Option<Checkpoint<V>>, Error>,
    experimentById: string -> Result<Experiment<V>, Error>,
    shortId: string -> string)

  /** Go's loadCheckpoint: the matched checkpoint, else the experiment's best
      checkpoint, else its latest one, else an error naming the experiment. */
  function LoadCheckpoint<V>(proj: Project<V>, prefix: string): (r: Result<Checkpoint<V>, Error>)
    ensures proj.checkpointOrExperimentFromPrefix(prefix).Failure? ==>
      r == Failure(proj.checkpointOrExperimentFromPrefix(prefix).error)
    ensures proj.checkpointOrExperimentFromPrefix(prefix).Success? ==>
      match proj.checkpointOrExperimentFromPrefix(prefix).value
      case CheckpointMatch(c) => r == Success(c)
      case ExperimentMatch(exp) =>
        r == FirstPick([proj.experimentBestCheckpoint(exp.id), proj.experimentLatestCheckpoint(exp.id)],
                       NoCheckpoints(proj.shortId(exp.id)))
  {
    match proj.checkpointOrExperimentFromPrefix(prefix)
    case Failure(e) => Failure(e)
    case Success(CheckpointMatch(c)) => Success(c)
    case Success(ExperimentMatch(exp)) =>
      match proj.experimentBestCheckpoint(exp.id)
      case Failure(e) => Failure(e)
      case Success(Some(c)) => Success(c)
      case Success(None) =>
        match proj.experimentLatestCheckpoint(exp.id)
        case Failure(e) => Failure(e)
        case Success(Some(c)) => Success(c)
        case Success(None) => Failure(NoCheckpoints(proj.shortId(exp.id)))
  }

  /** A prefix that names a checkpoint gives that checkpoint, whatever the
      experiment lookups would say. */
  lemma LoadMatchedCheckpoint<V>(proj: Project<V>, prefix: string, c: Checkpoint<V>)
    requires proj.checkpointOrExperimentFromPrefix(prefix) == Success(CheckpointMatch(c))
    ensures LoadCheckpoint(proj, prefix) == Success(c)
  {
  }

  /** A prefix that names an experiment gives its best checkpoint if it has
      one, else its latest, else fails naming the experiment's short ID. */
  lemma LoadExperimentCheckpoint<V>(proj: Project<V>, prefix: string, exp: Experiment<V>)
    requires proj.checkpointOrExperimentFromPrefix(prefix) == Success(ExperimentMatch(exp))
    ensures proj.experimentBestCheckpoint(exp.id).Success? && proj.experimentBestCheckpoint(exp.id).value.Some? ==>
      LoadCheckpoint(proj, prefix) == Success(proj.experimentBestCheckpoint(exp.id).value.value)
    ensures (proj.experimentBestCheckpoint(exp.id) == Success(None) &&
             proj.experimentLatestCheckpoint(exp.id).Success? && proj.experimentLatestCheckpoint(exp.id).value.Some?) ==>
      LoadCheckpoint(proj, prefix) == Success(proj.experimentLatestCheckpoint(exp.id).value.value)
    ensures (proj.experimentBestCheckpoint(exp.id) == Success(None) &&
             proj.experimentLatestCheckpoint(exp.id) == Success(None)) ==>
      LoadCheckpoint(proj, prefix) == Failure(NoCheckpoints(proj.shortId(exp.id)))
  {
  }

  /** The error of the first lookup that fails is returned unchanged, and the
      later lookups are not consulted. */
  lemma LoadPropagatesErrors<V>(proj: Project<V>, prefix: string)
    ensures proj.checkpointOrExperimentFromPrefix(prefix).Failure? ==>
      LoadCheckpoint(proj, prefix) == Failure(proj.checkpointOrExperimentFromPrefix(prefix).error)
    ensures (proj.checkpointOrExperimentFromPrefix(prefix).Success? &&
             proj.checkpointOrExperimentFromPrefix(prefix).value.ExperimentMatch?) ==>
      var id := proj.checkpointOrExperimentFromPrefix(prefix).value.experiment.id;
      (proj.experimentBestCheckpoint(id).Failure? ==>
        LoadCheckpoint(proj, prefix) == Failure(proj.experimentBestCheckpoint(id).error)) &&
      (proj.experimentBestCheckpoint(id) == Success(None) && proj.experimentLatestCheckpoint(id).Failure? ==>
        LoadCheckpoint(proj, prefix) == Failure(proj.experimentLatestCheckpoint(id).error))
  {
  }

  /** Conversely, every outcome comes from the lookups: a returned checkpoint
      is the matched one, or the best or latest one of the matched experiment,
      and every error is a lookup's error or names an experiment that has
      neither a best nor a latest checkpoint. */
  lemma LoadOutcomeOrigin<V>(proj: Project<V>, prefix: string)
    ensures var r := LoadCheckpoint(proj, prefix);
      var found := proj.checkpointOrExperimentFromPrefix(prefix);
      r.Success? ==>
        found.Success? &&
        (found.value == CheckpointMatch(r.value) ||
         (found.value.ExperimentMatch? &&
          (proj.experimentBestCheckpoint(found.value.experiment.id) == Success(Some(r.value)) ||
           (proj.experimentBestCheckpoint(found.value.experiment.id) == Success(None) &&
            proj.experimentLatestCheckpoint(found.value.experiment.id) == Success(Some(r.value))))))
    ensures var r := LoadCheckpoint(proj, prefix);
      var found := proj.checkpointOrExperimentFromPrefix(prefix);
      r.Failure? ==>
        found == Failure(r.error) ||
        (found.Success? && found.value.ExperimentMatch? &&
         var id := found.value.experiment.id;
         proj.experimentBestCheckpoint(id) == Failure(r.error) ||
         (proj.experimentBestCheckpoint(id) == Success(None) &&
          (proj.experimentLatestCheckpoint(id) == Failure(r.error) ||
           (proj.experimentLatestCheckpoint(id) == Success(None) &&
            r.error == NoCheckpoints(proj.shortId(id))))))
  {
  }

  /** What a selection tier says, read back from a selection's outcome. */
  function AsTier<T>(r: Result<T, Error>): Result<Option<T>, Error>
  {
    match r
    case Success(c) => Success(Some(c))
    case Failure(e) => Failure(e)
  }

  /** An ordered list of selection tiers, each giving a pick, no opinion, or
      an error: the first tier with an opinion decides, and if no tier has
      one the selection fails with `none`. */
  function FirstPick<T>(tiers: seq<Result<Option<T>, Error>>, none: Error): (r: Result<T, Error>)
    ensures (forall j :: 0 <= j < |tiers| ==> tiers[j] == Success(None)) ==> r == Failure(none)
    ensures forall i :: (0 <= i < |tiers| && tiers[i] != Success(None) &&
                         (forall j :: 0 <= j < i ==> tiers[j] == Success(None))) ==>
      AsTier(r) == tiers[i]
    decreases |tiers|
  {
    if tiers == [] then Failure(none)
    else match tiers[0]
      case Failure(e) => Failure(e)
      case Success(Some(c)) => Success(c)
      case Success(None) => FirstPick(tiers[1..], none)
  }
}
