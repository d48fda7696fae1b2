/** The Kubernetes vocabulary and the parts of the Agent resource that several
    controllers read. */
module Kube {

  datatype Option<+T> = None | Some(value: T)

  datatype Result<+T, +E> = Ok(value: T) | Err(error: E)

  /** types.NamespacedName */
  datatype Key = Key(ns: string, name: string)

  /** corev1.ObjectReference; only the name and the namespace are used. */
  datatype ObjectRef = ObjectRef(ns: string, name: string)

  /** getNamespaceWithDefault applied to a reference: the object it names. */
  function Target(ref: ObjectRef, parentNs: string): Key {
    Key(if ref.ns != "" then ref.ns else parentNs, ref.name)
  }

  datatype SubAgent = SubAgent(name: string, agentRef: Option<ObjectRef>, url: string, interactionType: string)

  datatype Tool = Tool(name: string, toolServerRef: Option<ObjectRef>, url: string, headers: seq<string>)

  datatype Protocol = Protocol(name: string, kind: string, port: int, path: string)

  datatype AgentSpec = AgentSpec(
    subAgents: seq<SubAgent>,
    tools: seq<Tool>,
    protocols: seq<Protocol>,
    aiGatewayRef: Option<ObjectRef>)

  const A2A_PROTOCOL := "A2A"

  /** An AiGateway or a ToolGateway: both are resolved by the same rules. */
  datatype Gateway = Gateway(key: Key, port: int)

  datatype ToolServerStatus = ToolServerStatus(url: string, gatewayUrl: string)

  predicate NoDuplicates<T(==)>(s: seq<T>) {
    forall i, j :: 0 <= i < j < |s| ==> s[i] != s[j]
  }

  /** `items` is what a List call returns for the objects with keys `keys`. */
  ghost predicate Lists(items: seq<Key>, keys: set<Key>) {
    NoDuplicates(items) && forall k :: k in items <==> k in keys
  }

  /** Two clusters that differ in at most the object `k`. */
  ghost predicate SameExcept<V>(m: map<Key, V>, m': map<Key, V>, k: Key) {
    m - {k} == m' - {k}
  }

  ghost predicate SameAt<V>(m: map<Key, V>, m': map<Key, V>, k: Key) {
    (k in m <==> k in m') && (k in m ==> m[k] == m'[k])
  }

  lemma SameExceptAt<V>(m: map<Key, V>, m': map<Key, V>, k: Key, x: Key)
    requires SameExcept(m, m', k) && x != k
    ensures SameAt(m, m', x)
  {
    assert x in m <==> x in m - {k};
    assert x in m' <==> x in m' - {k};
    if x in m {
      assert m[x] == (m - {k})[x] == (m' - {k})[x];
    }
  }

  /** `m` with the object `k` as it is in `from`. */
  function Updated<V>(m: map<Key, V>, from: map<Key, V>, k: Key): map<Key, V> {
    if k in from then m[k := from[k]] else m - {k}
  }

  lemma UpdatedAt<V>(m: map<Key, V>, from: map<Key, V>, k: Key, x: Key)
    ensures SameAt(Updated(m, from, k), if x == k then from else m, x)
  {
  }

  /** The objects `keep` as they are in `m`, and all others as in `from`. */
  function Mixed<V>(m: map<Key, V>, from: map<Key, V>, keep: set<Key>): map<Key, V> {
    map x | x in m.Keys + from.Keys && (if x in keep then x in m else x in from) :: if x in keep then m[x] else from[x]
  }

  lemma MixedAt<V>(m: map<Key, V>, from: map<Key, V>, keep: set<Key>, x: Key)
    ensures SameAt(Mixed(m, from, keep), if x in keep then m else from, x)
  {
  }
}
