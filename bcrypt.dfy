/**
 * The BCrypt password-hash provider factory: it keeps the cost factor
 * ("log rounds") that every provider it creates hashes with. Initialisation may
 * replace the cost factor by a configured value, but only by one within the
 * range BCrypt accepts. The hashing itself is not part of this model.
 */
module BCrypt {
  import opened Wrappers

  /** The provider id under which the factory registers. */
  const Id: string := "BCrypt"

  const DefaultLogRounds: int := 13
  const MinLogRounds: int := 4
  const MaxLogRounds: int := 31

  predicate InRange(logRounds: int) {
    MinLogRounds <= logRounds <= MaxLogRounds
  }

  /** A configured value the factory accepts: present and within range. */
  predicate Accepted(configLogRounds: Option<int>) {
    configLogRounds.Some? && InRange(configLogRounds.value)
  }

  /** The cost factor after one initialisation with a configured value that may be absent. */
  function InitStep(logRounds: int, configLogRounds: Option<int>): int {
    if Accepted(configLogRounds) then configLogRounds.value else logRounds
  }

  /** The cost factor after initialising with each configured value in turn. */
  function InitAll(logRounds: int, configs: seq<Option<int>>): int {
    if configs == [] then logRounds
    else InitStep(InitAll(logRounds, configs[..|configs| - 1]), configs[|configs| - 1])
  }

  /** The last accepted value among the configured ones, if any. */
  function LastAccepted(configs: seq<Option<int>>): (r: Option<int>)
    ensures r.None? <==> forall i :: 0 <= i < |configs| ==> !Accepted(configs[i])
    ensures r.Some? ==>
      exists i :: 0 <= i < |configs| && configs[i] == r && Accepted(configs[i]) &&
                  (forall j :: i < j < |configs| ==> !Accepted(configs[j]))
  {
    if configs == [] then None
    else if Accepted(configs[|configs| - 1]) then configs[|configs| - 1]
    else
      var r := LastAccepted(configs[..|configs| - 1]);
      assert forall i :: 0 <= i < |configs| - 1 ==> configs[..|configs| - 1][i] == configs[i];
      r
  }

  /**
   * Whatever sequence of initialisations happens, the cost factor is the last
   * accepted configured value, or the one it started with when none was accepted.
   */
  lemma {:induction false} InitAllIsLastAccepted(logRounds: int, configs: seq<Option<int>>)
    ensures InitAll(logRounds, configs) == LastAccepted(configs).GetOr(logRounds)
  {
    if configs != [] {
      InitAllIsLastAccepted(logRounds, configs[..|configs| - 1]);
    }
  }

  /** Initialisation never takes the cost factor out of range. */
  lemma {:induction false} InitAllKeepsRange(logRounds: int, configs: seq<Option<int>>)
    requires InRange(logRounds)
    ensures InRange(InitAll(logRounds, configs))
  {
    if configs != [] {
      InitAllKeepsRange(logRounds, configs[..|configs| - 1]);
    }
  }

  /** From the default, any sequence of initialisations leaves a cost factor in [4, 31]. */
  lemma FactoryCostAlwaysInRange(configs: seq<Option<int>>)
    ensures MinLogRounds <= InitAll(DefaultLogRounds, configs) <= MaxLogRounds
  {
    InitAllKeepsRange(DefaultLogRounds, configs);
  }

  /** A provider as the factory creates it: its id and the cost factor it hashes with. */
  datatype BCryptPasswordHashProvider = BCryptPasswordHashProvider(providerId: string, logRounds: int)

  class BCryptPasswordHashProviderFactory {
    var logRounds: int

    /** The class invariant: the cost factor is always one BCrypt accepts. */
    predicate Valid()
      reads this
    {
      InRange(logRounds)
    }

    constructor ()
      ensures logRounds == DefaultLogRounds
      ensures Valid()
    {
      logRounds := DefaultLogRounds;
    }

    /**
     * Takes the configured "log-rounds" value when it is present and in range,
     * and otherwise keeps the current cost factor.
     */
    method Init(configLogRounds: Option<int>)
      requires Valid()
      modifies this
      ensures Accepted(configLogRounds) ==> logRounds == configLogRounds.value
      ensures !Accepted(configLogRounds) ==> logRounds == old(logRounds)
      ensures logRounds == InitStep(old(logRounds), configLogRounds)
      ensures Valid()
    {
      if configLogRounds.Some? && configLogRounds.value >= MinLogRounds && configLogRounds.value <= MaxLogRounds {
        logRounds := configLogRounds.value;
      }
    }

    /** A provider with the factory's id and its current cost factor, which is in range. */
    method Create() returns (provider: BCryptPasswordHashProvider)
      requires Valid()
      ensures provider.providerId == GetId()
      ensures provider.logRounds == logRounds
      ensures MinLogRounds <= provider.logRounds <= MaxLogRounds
    {
      provider := BCryptPasswordHashProvider(Id, logRounds);
    }

    /** The id is always "BCrypt", whatever the state of the factory. */
    function GetId(): (id: string)
      ensures id == "BCrypt"
    {
      Id
    }
  }
}
