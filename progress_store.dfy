/**
 * The progress endpoints of the backend over its Redis store: one hash per
 * player and level under `progress:{playerId}:level:{level}`, whose field
 * values are strings ("1" for a completed task, "0" otherwise, and the
 * saved manifest under "yaml").
 */
module ProgressStore {
  import opened Common
  import Rubric

  /**
   * A hash key, `progress:{playerId}:level:{level}`. The decimal form of an
   * integer holds no ':', so distinct pairs give distinct keys and the pair
   * stands for the key.
   */
  type Key = (string, int)

  /** A Redis hash as `hgetall` returns it with `decode_responses=True`. */
  type Hash = map<string, string>

  /** The whole store: only the keys that exist. */
  type Db = map<Key, Hash>

  /** The `ProgressRes` body. `yaml` is None when no manifest was saved. */
  datatype ProgressRes = ProgressRes(playerId: string, level: int, tasks: map<string, bool>, done: bool, yaml: Option<string>)

  /** The `ProgressUpdate` body. */
  datatype ProgressUpdate = ProgressUpdate(playerId: string, level: int, task: string, completed: bool)

  /** The tasks `get_progress` reports even before anything is stored: three of level 1, one of level 2. */
  const Defaults: Hash := map["pull" := "0", "run" := "0", "logs" := "0", "validYaml" := "0"]

  /** `hgetall(key)`: the empty hash for a key that does not exist. */
  function Stored(db: Db, playerId: string, level: int): Hash
  {
    if (playerId, level) in db then db[(playerId, level)] else map[]
  }

  /** `{k: (v == "1" or v is True) ...}`: values read back are strings, so only "1" reads as done. */
  function Normalise(h: Hash): (tasks: map<string, bool>)
    ensures tasks.Keys == h.Keys
  {
    map k | k in h :: h[k] == "1"
  }

  /** Level 1 is done when every reported task is; any other level when `validYaml` is. */
  predicate LevelDone(level: int, tasks: map<string, bool>)
  {
    if level == 1 then forall k :: k in tasks ==> tasks[k]
    else "validYaml" in tasks && tasks["validYaml"]
  }

  /** A hash value that reads as done. */
  predicate IsSet(h: Hash, field: string) { field in h && h[field] == "1" }

  /**
   * `get_progress`: the defaults overlaid with the stored hash, normalised
   * to booleans, the level's completion and the saved manifest if any.
   */
  function Progress(db: Db, playerId: string, level: int): (res: ProgressRes)
    ensures res.playerId == playerId && res.level == level
    ensures res.tasks.Keys == Defaults.Keys + Stored(db, playerId, level).Keys
    ensures forall k :: k in res.tasks ==> (res.tasks[k] <==> IsSet(Stored(db, playerId, level), k))
    ensures level != 1 ==> (res.done <==> IsSet(Stored(db, playerId, level), "validYaml"))
    ensures level == 1 ==> (res.done <==>
      forall k :: k in Defaults.Keys + Stored(db, playerId, level).Keys ==> IsSet(Stored(db, playerId, level), k))
    ensures res.yaml.Some? <==> "yaml" in Stored(db, playerId, level)
    ensures res.yaml.Some? ==> res.yaml.value == Stored(db, playerId, level)["yaml"]
  {
    var key := (playerId, level);
    var tasks := if key in db then Defaults + db[key] else Defaults;
    var tasksBool := Normalise(tasks);
    var yml := if key in db && "yaml" in db[key] then Some(db[key]["yaml"]) else None;
    ProgressRes(playerId, level, tasksBool, LevelDone(level, tasksBool), yml)
  }

  /** `hset(key, task, "1" if completed else "0")`. */
  function Updated(db: Db, u: ProgressUpdate): Db
  {
    db[(u.playerId, u.level) := Stored(db, u.playerId, u.level)[u.task := if u.completed then "1" else "0"]]
  }

  /**
   * The reply of `update_progress`, read from the store after the write:
   * only the stored fields (no defaults), their completion, no manifest.
   */
  function UpdateReply(db: Db, u: ProgressUpdate): (res: ProgressRes)
    ensures res.playerId == u.playerId && res.level == u.level && res.yaml == None
    ensures res.tasks.Keys == Stored(db, u.playerId, u.level).Keys
    ensures forall k :: k in res.tasks ==> (res.tasks[k] <==> IsSet(Stored(db, u.playerId, u.level), k))
    ensures u.level == 1 ==> (res.done <==>
      forall k :: k in Stored(db, u.playerId, u.level) ==> IsSet(Stored(db, u.playerId, u.level), k))
    ensures u.level != 1 ==> (res.done <==> IsSet(Stored(db, u.playerId, u.level), "validYaml"))
  {
    var tasksBool := Normalise(Stored(db, u.playerId, u.level));
    ProgressRes(u.playerId, u.level, tasksBool, LevelDone(u.level, tasksBool), None)
  }

  /** `hset(key, mapping={"validYaml": "1", "yaml": text})` on the player's level-2 hash. */
  function Persisted(db: Db, playerId: string, yamlText: string): Db
  {
    db[(playerId, 2) := Stored(db, playerId, 2)["validYaml" := "1"]["yaml" := yamlText]]
  }

  /** A response that reports a passing manifest. */
  predicate ResponsePassed(out: Rubric.Response) { out.Answered? && out.verdict.ok }

  /** The Redis instance the handlers share. */
  class Store {
    var hashes: Db

    /** An empty store. */
    constructor ()
      ensures hashes == map[]
    {
      hashes := map[];
    }

    /** `GET /api/progress`: reads the store and changes nothing. */
    method GetProgress(playerId: string, level: int) returns (res: ProgressRes)
      ensures res == Progress(hashes, playerId, level)
      ensures res.done ==> (level == 1 ==> IsSet(Stored(hashes, playerId, level), "validYaml"))
    {
      res := Progress(hashes, playerId, level);
    }

    /** `POST /api/progress/update`: writes one field, then reports the stored hash. */
    method UpdateProgress(u: ProgressUpdate) returns (res: ProgressRes)
      modifies this
      ensures hashes == Updated(old(hashes), u)
      ensures res == UpdateReply(hashes, u)
      ensures res.tasks[u.task] == u.completed
    {
      hashes := Updated(hashes, u);
      res := UpdateReply(hashes, u);
    }

    /**
     * `POST /api/level/2/validate`: grades the parsed manifest and, for a
     * named player whose manifest passed, saves the flag and the text. A
     * response of HTTP 500 is raised before anything is saved.
     */
    method Validate(playerId: string, yamlText: string, parsed: Rubric.Parsed) returns (out: Rubric.Response)
      modifies this
      ensures out == Rubric.Judge(parsed)
      ensures hashes == if ResponsePassed(out) && playerId != "" then Persisted(old(hashes), playerId, yamlText) else old(hashes)
    {
      out := Rubric.Evaluate(parsed);
      if out.Answered? && playerId != "" && out.verdict.ok {
        hashes := Persisted(hashes, playerId, yamlText);
      }
    }
  }

  // ---- what the store promises ----

  /**
   * An update is read back: the task reports the completion just written,
   * and every other player and level reads as before.
   */
  lemma UpdateThenProgress(db: Db, u: ProgressUpdate)
    ensures Progress(Updated(db, u), u.playerId, u.level).tasks[u.task] == u.completed
    ensures forall playerId, level :: (playerId, level) != (u.playerId, u.level) ==>
      Progress(Updated(db, u), playerId, level) == Progress(db, playerId, level)
  {
    var after := Progress(Updated(db, u), u.playerId, u.level);
    assert u.task in Stored(Updated(db, u), u.playerId, u.level);
    assert after.tasks[u.task] <==> IsSet(Stored(Updated(db, u), u.playerId, u.level), u.task);
  }

  /** Updates of different tasks, players or levels commute. */
  lemma UpdatesCommute(db: Db, u1: ProgressUpdate, u2: ProgressUpdate)
    requires (u1.playerId, u1.level, u1.task) != (u2.playerId, u2.level, u2.task)
    ensures Updated(Updated(db, u1), u2) == Updated(Updated(db, u2), u1)
  {
    if (u1.playerId, u1.level) == (u2.playerId, u2.level) {
      var k := (u1.playerId, u1.level);
      var v1 := if u1.completed then "1" else "0";
      var v2 := if u2.completed then "1" else "0";
      assert Stored(db, u1.playerId, u1.level)[u1.task := v1][u2.task := v2]
          == Stored(db, u1.playerId, u1.level)[u2.task := v2][u1.task := v1];
    }
  }

  /** Repeating an update changes neither the store nor the reply. */
  lemma UpdateIdempotent(db: Db, u: ProgressUpdate)
    ensures Updated(Updated(db, u), u) == Updated(db, u)
    ensures UpdateReply(Updated(Updated(db, u), u), u) == UpdateReply(Updated(db, u), u)
  {
    var v := if u.completed then "1" else "0";
    assert Stored(db, u.playerId, u.level)[u.task := v][u.task := v] == Stored(db, u.playerId, u.level)[u.task := v];
  }

  /**
   * The reply to a player's first level-1 update reports the level done:
   * the hash then holds only that task.
   */
  lemma FirstLevel1UpdateReportsDone(db: Db, u: ProgressUpdate)
    requires u.level == 1 && (u.playerId, 1) !in db && u.completed
    ensures UpdateReply(Updated(db, u), u).done
  {
    assert Stored(Updated(db, u), u.playerId, u.level) == map[u.task := "1"];
  }

  /**
   * Reading level 1 reports it done only when `validYaml` is stored as "1"
   * for level 1 too, besides the three terminal tasks: the defaults make
   * every default task part of the test.
   */
  lemma Level1ProgressNeedsValidYaml(db: Db, playerId: string)
    ensures Progress(db, playerId, 1).done <==>
      IsSet(Stored(db, playerId, 1), "pull") && IsSet(Stored(db, playerId, 1), "run")
      && IsSet(Stored(db, playerId, 1), "logs") && IsSet(Stored(db, playerId, 1), "validYaml")
      && forall k :: k in Stored(db, playerId, 1) ==> IsSet(Stored(db, playerId, 1), k)
  {
    var h := Stored(db, playerId, 1);
    assert "pull" in Defaults.Keys && "run" in Defaults.Keys && "logs" in Defaults.Keys && "validYaml" in Defaults.Keys;
    if IsSet(h, "pull") && IsSet(h, "run") && IsSet(h, "logs") && IsSet(h, "validYaml")
      && forall k :: k in h ==> IsSet(h, k)
    {
      assert Defaults.Keys == {"pull", "run", "logs", "validYaml"};
    }
  }

  /** A passing manifest validated for a named player makes level 2 read back as done, with its text. */
  lemma PersistedThenProgress(db: Db, playerId: string, yamlText: string)
    ensures Progress(Persisted(db, playerId, yamlText), playerId, 2).done
    ensures Progress(Persisted(db, playerId, yamlText), playerId, 2).yaml == Some(yamlText)
    ensures forall p, level :: (p, level) != (playerId, 2) ==>
      Progress(Persisted(db, playerId, yamlText), p, level) == Progress(db, p, level)
  {
    var h := Stored(Persisted(db, playerId, yamlText), playerId, 2);
    assert h["validYaml"] == "1";
    assert h["yaml"] == yamlText;
  }

  /** Once level 2 is saved as done, later terminal updates of other tasks keep it done. */
  lemma Level2DoneSurvivesOtherUpdates(db: Db, u: ProgressUpdate, playerId: string)
    requires Progress(db, playerId, 2).done && u.task != "validYaml"
    ensures Progress(Updated(db, u), playerId, 2).done
  {
    assert IsSet(Stored(db, playerId, 2), "validYaml");
    assert Stored(Updated(db, u), playerId, 2)["validYaml"] == Stored(db, playerId, 2)["validYaml"];
  }
}
