/** internal/product/sales.go: recording and listing the sales of a product.
    The `sales` table is a sequence of rows; the database's verdict on an INSERT
    (a foreign-key or other constraint failure) and a failing SELECT are inputs. */
module Sales {
  import opened Wrappers
  import opened WebErrors
  import opened Strconv

  /** NewSale: what a client sends to record a sale. */
  datatype NewSale = NewSale(quantity: int, paid: int)

  /** Sale: one row of the `sales` table; `dateCreated` is a UTC time in
      nanoseconds since the epoch. */
  datatype Sale = Sale(id: string, productId: int, quantity: int, paid: int, dateCreated: int)

  const ErrInvalidId: Err := Sentinel(ProductInvalidId)

  /** The database's answer to inserting a row: None when it is accepted. */
  type Inserter = Sale -> Option<Err>

  /** AddSale, as a function of the table: the product id must parse as an
      integer; the new row carries the parsed id, the quantity and amount sent by
      the client, the generated id and the creation time; it is appended only when
      the database accepts it. */
  function AddSaleTo(rows: seq<Sale>, ns: NewSale, productID: string, now: int, saleId: string, insert: Inserter)
    : (out: (seq<Sale>, Result<Sale, Err>))
    ensures Atoi(productID).None? ==> out == (rows, Failure(ErrInvalidId))
    ensures out.1.Success? ==>
      Atoi(productID).Some? &&
      out.0 == rows + [out.1.value] &&
      out.1.value == Sale(saleId, Atoi(productID).value, ns.quantity, ns.paid, now) &&
      insert(out.1.value).None?
    ensures out.1.Failure? ==> out.0 == rows
    ensures Atoi(productID).Some? && out.1.Failure? ==>
      var s := Sale(saleId, Atoi(productID).value, ns.quantity, ns.paid, now);
      insert(s).Some? && out.1.error == Wrapped("inserting sales", insert(s).value)
  {
    match Atoi(productID)
    case None => (rows, Failure(ErrInvalidId))
    case Some(id) =>
      var s := Sale(saleId, id, ns.quantity, ns.paid, now);
      match insert(s)
      case Some(e) => (rows, Failure(Wrapped("inserting sales", e)))
      case None => (rows + [s], Success(s))
  }

  /** The rows of one product, in table order. */
  function ForProduct(rows: seq<Sale>, id: int): (r: seq<Sale>)
    ensures forall s :: s in r <==> s in rows && s.productId == id
    ensures |r| <= |rows|
    decreases |rows|
  {
    if rows == [] then []
    else (if rows[0].productId == id then [rows[0]] else []) + ForProduct(rows[1..], id)
  }

  /** The selection keeps every row of the product as often as the table holds
      it, and no other row. */
  lemma {:induction false} ForProductCount(rows: seq<Sale>, id: int, s: Sale)
    ensures multiset(ForProduct(rows, id))[s] == if s.productId == id then multiset(rows)[s] else 0
    decreases |rows|
  {
    if rows != [] {
      ForProductCount(rows[1..], id, s);
      assert rows == [rows[0]] + rows[1..];
    }
  }

  /** ListSales: every sale of the product and nothing else; an id that is not an
      integer is rejected, and no match is an empty (non-nil) list. */
  function ListSalesOf(rows: seq<Sale>, productID: string, selectErr: Option<Err>): (r: Result<seq<Sale>, Err>)
    ensures Atoi(productID).None? ==> r == Failure(ErrInvalidId)
    ensures Atoi(productID).Some? && selectErr.Some? ==>
      r == Failure(Wrapped("selecting sales. Product id: " + Itoa(Atoi(productID).value), selectErr.value))
    ensures r.Success? ==>
      Atoi(productID).Some? && selectErr.None? &&
      (forall s :: s in r.value <==> s in rows && s.productId == Atoi(productID).value)
    ensures Atoi(productID).Some? && selectErr.None? ==> r.Success?
  {
    match Atoi(productID)
    case None => Failure(ErrInvalidId)
    case Some(id) =>
      if selectErr.Some? then Failure(Wrapped("selecting sales. Product id: " + Itoa(id), selectErr.value))
      else Success(ForProduct(rows, id))
  }

  /** Appending a row extends a product's list by that row exactly when it is
      a sale of that product. */
  lemma {:induction false} ForProductAppend(rows: seq<Sale>, s: Sale, id: int)
    ensures ForProduct(rows + [s], id) == ForProduct(rows, id) + (if s.productId == id then [s] else [])
    decreases |rows|
  {
    if rows == [] {
      assert rows + [s] == [s];
      assert ForProduct([s][1..], id) == [];
    } else {
      assert (rows + [s])[1..] == rows[1..] + [s];
      ForProductAppend(rows[1..], s, id);
    }
  }

  /** A product with no sales, then two added: its list holds those two and
      nothing else (the SELECT promises no order, so neither does this). */
  lemma ForProductTwo(rows: seq<Sale>, s1: Sale, s2: Sale, p: int)
    requires forall s :: s in rows ==> s.productId != p
    requires s1.productId == p && s2.productId == p
    ensures multiset(ForProduct(rows + [s1] + [s2], p)) == multiset{s1, s2}
  {
    assert ForProduct(rows, p) == [] by {
      if ForProduct(rows, p) != [] {
        assert ForProduct(rows, p)[0] in ForProduct(rows, p);
      }
    }
    ForProductAppend(rows, s1, p);
    ForProductAppend(rows + [s1], s2, p);
    assert ForProduct(rows + [s1] + [s2], p) == [s1, s2];
  }

  /** Two sales added to a product that had none are exactly what ListSales
      returns for it, in some order. */
  lemma TwoSalesListed(rows: seq<Sale>, p: int, a: NewSale, b: NewSale, now: int,
                       idA: string, idB: string, insert: Inserter)
    requires MinInt64 <= p <= MaxInt64
    requires forall s :: s in rows ==> s.productId != p
    requires insert(Sale(idA, p, a.quantity, a.paid, now)).None?
    requires insert(Sale(idB, p, b.quantity, b.paid, now)).None?
    ensures var first := AddSaleTo(rows, a, Itoa(p), now, idA, insert);
      var second := AddSaleTo(first.0, b, Itoa(p), now, idB, insert);
      first.1 == Success(Sale(idA, p, a.quantity, a.paid, now)) &&
      second.1 == Success(Sale(idB, p, b.quantity, b.paid, now)) &&
      ListSalesOf(second.0, Itoa(p), None).Success? &&
      multiset(ListSalesOf(second.0, Itoa(p), None).value) == multiset{first.1.value, second.1.value}
  {
    AtoiItoa(p);
    var s1 := Sale(idA, p, a.quantity, a.paid, now);
    var s2 := Sale(idB, p, b.quantity, b.paid, now);
    var first := AddSaleTo(rows, a, Itoa(p), now, idA, insert);
    assert first == (rows + [s1], Success(s1));
    var second := AddSaleTo(first.0, b, Itoa(p), now, idB, insert);
    assert second == (rows + [s1] + [s2], Success(s2));
    ForProductTwo(rows, s1, s2, p);
  }

  /** The `sales` table, changed in place by AddSale. */
  class SalesTable {
    var rows: seq<Sale>

    constructor ()
      ensures rows == []
    {
      rows := [];
    }

    /** AddSale: parse the id, build the row, insert it; the table changes only
        when the insert succeeds. */
    method AddSale(ns: NewSale, productID: string, now: int, saleId: string, insert: Inserter)
      returns (r: Result<Sale, Err>)
      modifies this
      ensures (rows, r) == AddSaleTo(old(rows), ns, productID, now, saleId, insert)
    {
      var id := Atoi(productID);
      if id.None? {
        return Failure(ErrInvalidId);
      }
      var s := Sale(saleId, id.value, ns.quantity, ns.paid, now);
      var e := insert(s);
      if e.Some? {
        return Failure(Wrapped("inserting sales", e.value));
      }
      rows := rows + [s];
      r := Success(s);
    }
  }
}
