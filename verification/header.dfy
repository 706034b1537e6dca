/** The multi-valued header map of a transport request (net/http's `Header`)
    and the two ways request.go writes to it. Keys are compared exactly:
    net/http's key canonicalisation is not part of this model. */
module HttpHeader {

  type Header = map<string, seq<string>>

  /** The values recorded under `k`; an absent key has no values. */
  function Values(h: Header, k: string): seq<string>
  {
    if k in h then h[k] else []
  }

  /** `h` and `h'` hold the same keys and values everywhere except at `k`. */
  ghost predicate AgreeExcept(h: Header, h': Header, k: string)
  {
    forall j :: j != k ==> (j in h <==> j in h') && Values(h, j) == Values(h', j)
  }

  /** `Header.Set`: the value list of `k` becomes exactly `[v]`. */
  function Set(h: Header, k: string, v: string): (h': Header)
    ensures k in h' && h'[k] == [v]
    ensures AgreeExcept(h, h', k)
  {
    h[k := [v]]
  }

  /** `Header.Add`: `v` is appended after the values already under `k`. */
  function Add(h: Header, k: string, v: string): (h': Header)
    ensures k in h' && h'[k] == Values(h, k) + [v]
    ensures AgreeExcept(h, h', k)
  {
    h[k := Values(h, k) + [v]]
  }

  /** `h'` is `h` after one `Add(k, staged[k])` for every staged key: staged
      keys gain their staged value at the end of their list, and every other
      key keeps its list. */
  ghost predicate AppendedEach(h: Header, staged: map<string, string>, h': Header)
  {
    && h'.Keys == h.Keys + staged.Keys
    && (forall k :: k in staged ==> h'[k] == Values(h, k) + [staged[k]])
    && (forall k :: k in h && k !in staged ==> h'[k] == h[k])
  }

  /** Adds every staged header to `h`, visiting the staged keys in an
      arbitrary order (Go's map iteration order is unspecified). Because each
      staged key is visited once and `Add` only touches its own key, every
      order gives the same header map. */
  method AddEach(h: Header, staged: map<string, string>) returns (h': Header)
    ensures AppendedEach(h, staged, h')
  {
    h' := h;
    var todo := staged.Keys;
    while todo != {}
      invariant todo <= staged.Keys
      invariant h'.Keys == h.Keys + (staged.Keys - todo)
      invariant forall k :: k in staged && k !in todo ==> h'[k] == Values(h, k) + [staged[k]]
      invariant forall k :: k in h && (k !in staged || k in todo) ==> h'[k] == h[k]
      decreases todo
    {
      var k :| k in todo;
      h' := Add(h', k, staged[k]);
      todo := todo - {k};
    }
  }

  /** Adding the same staged map twice leaves each staged key with its
      staged value appended twice. */
  lemma AppendTwice(h: Header, staged: map<string, string>, h1: Header, h2: Header)
    requires AppendedEach(h, staged, h1)
    requires AppendedEach(h1, staged, h2)
    ensures forall k :: k in staged ==> h2[k] == Values(h, k) + [staged[k], staged[k]]
    ensures forall k :: k in h && k !in staged ==> h2[k] == h[k]
  {
  }
}
