/** Module identifiers as paths (stdtypes/moduleid.go). */
module ModuleIds {
  type ModuleId = string

  const SEPARATOR := '/'

  /** The part up to the first separator, and the rest. */
  function Top(id: ModuleId): ModuleId {
    if id == [] || id[0] == SEPARATOR then [] else [id[0]] + Top(id[1..])
  }

  function Sub(id: ModuleId): ModuleId {
    if id == [] then [] else if id[0] == SEPARATOR then id[1..] else Sub(id[1..])
  }

  function Then(id: ModuleId, sub: ModuleId): ModuleId {
    id + [SEPARATOR] + sub
  }

  /** Extending a path keeps its top; extending a top-level identifier adds exactly the submodule. */
  lemma {:induction false} TopOfThen(id: ModuleId, sub: ModuleId)
    ensures Top(Then(id, sub)) == Top(id)
    ensures SEPARATOR !in id ==> Top(Then(id, sub)) == id && Sub(Then(id, sub)) == sub
    decreases |id|
  {
    if id == [] {
      assert Then(id, sub) == [SEPARATOR] + sub;
    } else {
      TopOfThen(id[1..], sub);
      assert Then(id, sub)[1..] == Then(id[1..], sub) && Then(id, sub)[0] == id[0];
      assert SEPARATOR !in id ==> SEPARATOR !in id[1..];
    }
  }
}
