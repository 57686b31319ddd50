/**
 * The immutable state threaded through an agent run (waspnest/core/state.py).
 * A state is a frozen record of a payload, a metadata dictionary and a context
 * dictionary; `with_context` builds a new state whose context is a shallow merge
 * in which the updates win.
 */
module StateModel {

  /** The name of a payload's class; skills are dispatched on it. */
  type TypeTag = string

  /** A payload is opaque to the engine except for the class it belongs to. */
  datatype Payload = Payload(tag: TypeTag, body: nat)

  /** Values stored in context and metadata dictionaries. */
  datatype Value = Text(text: string) | Number(n: int) | Opaque(id: nat)

  type Dict = map<string, Value>

  datatype State = State(data: Payload, metadata: Dict, context: Dict)

  /** `State(data)`: both dictionaries default to empty ones. */
  function OfData(data: Payload): (s: State)
    ensures s.data == data
    ensures s.metadata == map[] && s.context == map[]
  {
    State(data, map[], map[])
  }

  /** `state.with_context(**updates)`: `{**self.context, **updates}`. */
  function WithContext(s: State, updates: Dict): (r: State)
    ensures r.data == s.data && r.metadata == s.metadata
    ensures r.context.Keys == s.context.Keys + updates.Keys
    ensures forall k :: k in updates ==> r.context[k] == updates[k]
    ensures forall k :: k in s.context && k !in updates ==> r.context[k] == s.context[k]
  {
    State(s.data, s.metadata, s.context + updates)
  }

  /** Merging no updates gives back the same state. */
  lemma WithContextEmpty(s: State)
    ensures WithContext(s, map[]) == s
  {
    assert s.context + map[] == s.context;
  }

  /** Two successive merges are one merge of the combined updates, the later ones winning. */
  lemma WithContextCompose(s: State, u1: Dict, u2: Dict)
    ensures WithContext(WithContext(s, u1), u2) == WithContext(s, u1 + u2)
  {
    assert (s.context + u1) + u2 == s.context + (u1 + u2);
  }

  /** Applying the same updates twice is the same as applying them once. */
  lemma WithContextIdempotent(s: State, u: Dict)
    ensures WithContext(WithContext(s, u), u) == WithContext(s, u)
  {
    WithContextCompose(s, u, u);
    assert u + u == u;
  }

}
