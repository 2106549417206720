/** Small vocabulary shared by the tables, the scheduler and the dispatchers. */
module Common {

  datatype Option<+T> = None | Some(value: T)

  /** How a lookup in another component ends. */
  datatype Fetched<+T> = Found(value: T) | Missing | Broken

  /** Unix time as the handlers stamp it; the clock never shows zero, the "not set" value. */
  type Time = t: nat | 0 < t witness 1

  /** Status codes a handler can answer with. */
  datatype Code = InvalidArgument | NotFound | FailedPrecondition | Internal

  datatype Response = Done | Refused(code: Code)

  /** Who calls a handler: users see the rows of their project, workers those of their tenant. */
  datatype Caller = User(projectId: string) | Worker(tenantId: string)

  /** A Kubernetes environment assigned to a project. */
  datatype Env = Env(clusterId: string, namespace: string)

  /** The namespace a project has in a cluster: the last assignment wins. */
  function NamespaceOf(envs: seq<Env>, clusterId: string): Option<string> {
    if envs == [] then None
    else if envs[|envs| - 1].clusterId == clusterId then Some(envs[|envs| - 1].namespace)
    else NamespaceOf(envs[..|envs| - 1], clusterId)
  }

  /** The scheduler's promise: an assigned cluster other than the previous one, with its namespace. */
  predicate Placement(envs: seq<Env>, previous: string, clusterId: string, namespace: string) {
    clusterId != previous && NamespaceOf(envs, clusterId) == Some(namespace)
  }

  /** `strings.Contains` */
  predicate Contains(s: string, sub: string) {
    exists i | 0 <= i <= |s| :: sub <= s[i..]
  }

  /** The text has `sub` somewhere inside. */
  lemma ContainsExactly(s: string, sub: string)
    ensures Contains(s, sub) <==> exists a, b :: s == a + sub + b
  {
    if i :| 0 <= i <= |s| && sub <= s[i..] {
      assert s == s[..i] + sub + s[i + |sub|..];
    }
    if a, b :| s == a + sub + b {
      assert sub <= s[|a|..];
    }
  }

  /** The last assignment of a cluster decides its namespace. */
  lemma {:induction false} NamespaceIsLast(envs: seq<Env>, c: string, ns: string)
    ensures NamespaceOf(envs, c) == Some(ns) <==> exists i :: IsLastOf(envs, c, i) && envs[i].namespace == ns
    ensures NamespaceOf(envs, c).None? <==> forall i :: 0 <= i < |envs| ==> envs[i].clusterId != c
  {
    if envs != [] {
      var n, init := |envs| - 1, envs[..|envs| - 1];
      NamespaceIsLast(init, c, ns);
      if envs[n].clusterId == c {
        assert IsLastOf(envs, c, n);
      } else {
        assert forall i :: IsLastOf(envs, c, i) <==> IsLastOf(init, c, i);
      }
    }
  }

  predicate IsLastOf(envs: seq<Env>, c: string, i: int) {
    0 <= i < |envs| && envs[i].clusterId == c && forall j :: i < j < |envs| ==> envs[j].clusterId != c
  }

  /** Go's conversion to int32: the number in the signed range that is equal modulo 2^32. */
  function ToInt32(n: int): int
    decreases if -0x8000_0000 <= n < 0x8000_0000 then 0 else if n < 0 then -n else n
  {
    if n >= 0x8000_0000 then ToInt32(n - 0x1_0000_0000)
    else if n < -0x8000_0000 then ToInt32(n + 0x1_0000_0000)
    else n
  }

  lemma {:induction false} ToInt32Exactly(n: int)
    ensures -0x8000_0000 <= ToInt32(n) < 0x8000_0000 && (n - ToInt32(n)) % 0x1_0000_0000 == 0
    decreases if -0x8000_0000 <= n < 0x8000_0000 then 0 else if n < 0 then -n else n
  {
    if n >= 0x8000_0000 {
      ToInt32Exactly(n - 0x1_0000_0000);
    } else if n < -0x8000_0000 {
      ToInt32Exactly(n + 0x1_0000_0000);
    }
  }

  const PULLING := "Pulling"
}
