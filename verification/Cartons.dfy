/** Cartons and what is packed in them. */
module Cartons {
  import opened Ids
  import opened Quantities

  datatype CartonStatus = Draft | Picking | Packed | Assigned | Labeled | Shipped

  /** A calendar day. */
  datatype Date = Date(year: nat, month: nat, day: nat)

  /** Some units of a product, from a lot that may expire. */
  datatype Content = Content(portion: Portion, expiresOn: Option<Date>)

  datatype Carton = Carton(id: Id, status: CartonStatus, shipment: Option<Id>, contents: seq<Content>, createdAt: int)

  function Portions(contents: seq<Content>): (portions: seq<Portion>)
    ensures |portions| == |contents| && forall i :: 0 <= i < |contents| ==> portions[i] == contents[i].portion
  {
    seq(|contents|, i requires 0 <= i < |contents| => contents[i].portion)
  }
}
