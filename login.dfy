/** Entering the world (`Format10Handler`): the stored player is loaded
    and checked (`LoadPlayer`), the game-master flag is derived from the
    configured names (`EnterGame`), and only then is the redirect checked
    (`ValidateClient`). */
module Login {
  import opened Common
  import opened Text
  import opened Redirects

  /** The fields of a stored player the load checks. */
  datatype PlayerRecord = PlayerRecord(username: string, str: int, ac: int, expLevel: int)

  /** The bounds a loaded player must meet: positive strength, armour
      class at most 200, experience level at most 99. */
  predicate Sane(p: PlayerRecord) {
    p.str > 0 && p.ac <= 200 && p.expLevel <= 99
  }

  datatype LoadOutcome = Corrupted | Loaded(player: PlayerRecord)

  /** `LoadPlayer`'s check: a missing or out-of-bounds record is reported
      as corrupted and the client is disconnected. */
  function LoadPlayer(stored: Option<PlayerRecord>): (r: LoadOutcome)
    ensures r.Loaded? <==> stored.Some? && Sane(stored.value)
    ensures r.Loaded? ==> r.player == stored.value
  {
    match stored
    case None => Corrupted
    case Some(p) => if p.str <= 0 || p.ac > 200 || p.expLevel > 99 then Corrupted else Loaded(p)
  }

  /** Whether `username` is one of the configured game masters, comparing
      lower-cased names. */
  function IsGameMaster(gameMasters: seq<string>, username: string): (r: bool)
    ensures r <==> exists i :: 0 <= i < |gameMasters| && ToLower(gameMasters[i]) == ToLower(username)
  {
    if gameMasters == [] then false
    else if ToLower(gameMasters[0]) == ToLower(username) then true
    else
      var r := IsGameMaster(gameMasters[1..], username);
      assert forall i :: 1 <= i < |gameMasters| ==> gameMasters[i] == gameMasters[1..][i - 1];
      r
  }

  /** A game master listed under any letter case is recognised. */
  lemma GameMasterIgnoresCase(gameMasters: seq<string>, a: string, b: string)
    requires EqualsIgnoreCase(a, b)
    ensures IsGameMaster(gameMasters, a) == IsGameMaster(gameMasters, b)
  {
  }

  datatype EnterOutcome =
    | NoPlayer                               // nothing stored: the redirect check then faults on the missing player
    | Rejected(loaded: LoadOutcome)          // disconnected: corrupted record, no redirect, or both
    | Entered(player: PlayerRecord, gameMaster: bool)

  datatype EnterResult = EnterResult(outcome: EnterOutcome, registry: multiset<string>)

  /** The whole entry: load, then consume the redirect of the stored
      player's name. A corrupted record is assigned before it is refused,
      so it still consumes its redirect. */
  function EnterWorld(registry: multiset<string>, stored: Option<PlayerRecord>, gameMasters: seq<string>): (r: EnterResult)
    ensures stored.None? ==> r.outcome == NoPlayer && r.registry == registry
    ensures stored.Some? && !r.outcome.Entered? ==> r.outcome == Rejected(LoadPlayer(stored))
    ensures stored.Some? ==> r.registry == Consume(registry, stored.value.username).registry
    ensures r.outcome.Entered? <==> stored.Some? && Sane(stored.value) && ToLower(stored.value.username) in registry
    ensures r.outcome.Entered? ==> r.outcome.player == stored.value
    ensures r.outcome.Entered? ==> (r.outcome.gameMaster <==> IsGameMaster(gameMasters, stored.value.username))
  {
    match stored
    case None => EnterResult(NoPlayer, registry)
    case Some(p) =>
      var loaded := LoadPlayer(stored);
      var c := Consume(registry, p.username);
      if loaded.Loaded? && c.admitted then EnterResult(Entered(p, IsGameMaster(gameMasters, p.username)), c.registry)
      else EnterResult(Rejected(loaded), c.registry)
  }

  /** A player enters at most once per redirect: the same stored player
      entering again after a successful entry with one pending redirect is
      turned away. */
  lemma EnterOnce(registry: multiset<string>, p: PlayerRecord, gameMasters: seq<string>)
    requires registry[ToLower(p.username)] <= 1
    requires EnterWorld(registry, Some(p), gameMasters).outcome.Entered?
    ensures EnterWorld(EnterWorld(registry, Some(p), gameMasters).registry, Some(p), gameMasters).outcome.Rejected?
  {
  }
}
