/**
 * The part of a `VaadinSession` the popup uses: named attributes, the list
 * of request handlers, and the queue of tasks handed to `session.access`
 * (here only handler removals).
 */
module Sessions {
  import opened Wrappers
  import Seqs

  class Session<D, H(==)> {
    var attributes: map<string, D>
    var handlers: seq<H>
    /** Handlers whose removal has been queued with `access`, oldest first. */
    var pending: seq<H>

    constructor()
      ensures attributes == map[] && handlers == [] && pending == []
    {
      attributes := map[];
      handlers := [];
      pending := [];
    }

    /** `setAttribute(name, value)`: a null value removes the attribute. */
    method SetAttribute(name: string, value: Option<D>)
      modifies this`attributes
      ensures value.Some? ==> attributes == old(attributes)[name := value.value]
      ensures value.None? ==> attributes == old(attributes) - {name}
    {
      if value.Some? {
        attributes := attributes[name := value.value];
      } else {
        attributes := attributes - {name};
      }
    }

    /** `getAttribute(name)`: null when there is no such attribute. */
    function GetAttribute(name: string): (r: Option<D>)
      reads this
      ensures r.Some? <==> name in attributes
      ensures r.Some? ==> r.value == attributes[name]
    {
      if name in attributes then Some(attributes[name]) else None
    }

    /** `addRequestHandler`: the new handler is consulted before the others. */
    method AddRequestHandler(h: H)
      modifies this`handlers
      ensures handlers == [h] + old(handlers)
    {
      handlers := [h] + handlers;
    }

    /** `removeRequestHandler`: the first occurrence goes, the rest keep their order. */
    method RemoveRequestHandler(h: H)
      modifies this`handlers
      ensures handlers == Seqs.RemoveFirst(old(handlers), h)
    {
      handlers := Seqs.RemoveFirst(handlers, h);
    }

    /** `access(() -> removeRequestHandler(h))`: the removal is queued, not yet done. */
    method AccessRemoveHandler(h: H)
      modifies this`pending
      ensures pending == old(pending) + [h]
    {
      pending := pending + [h];
    }
  }
}
