/**
 * The lazily created `Singleton`. Java's static `INSTANCE` field becomes a
 * field of `SingletonHolder`, the one object standing for the class's static
 * state; the private constructor becomes the rule that only `GetInstance`
 * creates a `Singleton`, counted by the ghost field `created`.
 */
module SingletonPattern {

  /** The initial value of `info`, with its two double spaces. */
  const INITIAL_INFO: string := "Initial  info  class"

  class Singleton {
    var info: string

    /** Private in the source: only `SingletonHolder.GetInstance` calls it. */
    constructor ()
      ensures info == INITIAL_INFO
    {
      info := INITIAL_INFO;
    }

    /** `setInfo`: what every later `getInfo` on any reference to this object returns. */
    method SetInfo(info: string)
      modifies this
      ensures this.info == info
    {
      this.info := info;
    }
  }

  /** The static state of the `Singleton` class. */
  class SingletonHolder {
    var instance: Singleton?
    /** How many `Singleton` objects have been built so far. */
    ghost var created: nat

    /** At most one object is ever built, and it is the one held. */
    ghost predicate Valid()
      reads this
    {
      created == (if instance == null then 0 else 1)
    }

    /** The class as loaded: no instance yet. */
    constructor ()
      ensures instance == null && Valid()
    {
      instance := null;
      created := 0;
    }

    /**
     * `getInstance`: the first call builds the instance with the initial info;
     * every later call returns that same object and leaves its info alone.
     */
    method GetInstance() returns (r: Singleton)
      requires Valid()
      modifies this
      ensures Valid() && instance == r && created == 1
      ensures old(instance) == null ==> fresh(r) && r.info == INITIAL_INFO
      ensures old(instance) != null ==> r == old(instance) && r.info == old(r.info)
    {
      if instance == null {
        instance := new Singleton();
        created := created + 1;
      }
      r := instance;
    }
  }

  /** Two `getInstance` calls in a row return one object, built once. */
  method TwoCallsShareInstance(holder: SingletonHolder) returns (s1: Singleton, s2: Singleton)
    requires holder.Valid()
    modifies holder
    ensures s1 == s2 && holder.created == 1
  {
    s1 := holder.GetInstance();
    s2 := holder.GetInstance();
  }

  /**
   * The run of `Main`: both references are the same object, so the info read
   * through the first one is the one set through the second.
   */
  method Example(first: string, second: string) returns (shown: string, same: bool)
    ensures same
    ensures shown == second
  {
    var holder := new SingletonHolder();
    var s1 := holder.GetInstance();
    s1.SetInfo(first);
    var s2 := holder.GetInstance();
    s2.SetInfo(second);
    shown := s1.info;
    same := s1 == s2;
  }
}
