/** cmd/sales-api/internal/handlers/product.go: the product and sales
    handlers. The product repository (List, Retrieve, Create, Update, Delete)
    is not part of this model: its answers are fields of the World; the sales
    repository is the Sales module. */
module ProductHandlers {
  import opened Wrappers
  import opened JsonValues
  import opened WebErrors
  import opened Sales
  import opened WebRequest
  import opened Web
  import opened WebResponse

  /** matchPredefinedErrors: the three product errors, compared by identity,
      become request errors with 404, 400 and 403; anything else is not
      matched, including one of them wrapped. */
  function MatchPredefinedErrors(err: Err): (r: Option<Err>)
    ensures err == Sentinel(ProductNotFound) ==> r == Some(NewRequestError(err, StatusNotFound))
    ensures err == Sentinel(ProductInvalidId) ==> r == Some(NewRequestError(err, StatusBadRequest))
    ensures err == Sentinel(ProductForbidden) ==> r == Some(NewRequestError(err, StatusForbidden))
    ensures r.None? <==> !(err.Sentinel? && err.v in {ProductNotFound, ProductInvalidId, ProductForbidden})
  {
    match err
    case Sentinel(ProductNotFound) => Some(NewRequestError(err, StatusNotFound))
    case Sentinel(ProductInvalidId) => Some(NewRequestError(err, StatusBadRequest))
    case Sentinel(ProductForbidden) => Some(NewRequestError(err, StatusForbidden))
    case _ => None
  }

  /** A repository error as a handler returns it: the matched request error,
      or the error wrapped with what the handler was doing. */
  function Translate(err: Err, doing: string): (r: Err)
    ensures MatchPredefinedErrors(err).Some? ==> r == MatchPredefinedErrors(err).value
    ensures MatchPredefinedErrors(err).None? ==> r == Wrapped(doing, err)
  {
    match MatchPredefinedErrors(err)
    case Some(webErr) => webErr
    case None => Wrapped(doing, err)
  }

  /** The client sees the mapped status for the three product errors; any other
      error that is not already a web error, wrapped or not, becomes a 500. */
  lemma TranslateStatus(err: Err, doing: string)
    ensures err == Sentinel(ProductNotFound) ==> ErrorStatus(Translate(err, doing)) == StatusNotFound
    ensures err == Sentinel(ProductInvalidId) ==> ErrorStatus(Translate(err, doing)) == StatusBadRequest
    ensures err == Sentinel(ProductForbidden) ==> ErrorStatus(Translate(err, doing)) == StatusForbidden
    ensures MatchPredefinedErrors(err).None? && !Cause(err).WebError? ==>
      ErrorStatus(Translate(err, doing)) == StatusInternalServerError
  {
    CauseOfWrap(doing, err);
  }

  /** Matching is by identity: a wrapped product error is not matched. */
  lemma WrappedSentinelNotMatched(m: string, v: ErrVar)
    ensures MatchPredefinedErrors(Wrapped(m, Sentinel(v))).None?
  {
  }

  const ErrClaimsNotInContext: Err := Plain("auth claims not in context")

  /** List: a repository failure is returned as it is; otherwise 200 with the list. */
  function List(ctx: Ctx, st: State, r: Request): (o: Outcome)
    ensures st.world.listProducts.Failure? ==> o == Outcome(st, Some(st.world.listProducts.error))
    ensures st.world.listProducts.Success? ==> o == Respond(ctx, st, Record(st.world.listProducts.value), StatusOK)
  {
    match st.world.listProducts
    case Failure(e) => Outcome(st, Some(e))
    case Success(list) => Respond(ctx, st, Record(list), StatusOK)
  }

  /** Retrieve: the product named by the `id` parameter, 200; failures translated. */
  function Retrieve(ctx: Ctx, st: State, r: Request): (o: Outcome)
    ensures var found := st.world.retrieveProduct(URLParam(r, "id"));
      (found.Failure? ==> o == Outcome(st, Some(Translate(found.error, "looking for product " + URLParam(r, "id"))))) &&
      (found.Success? ==> o == Respond(ctx, st, Record(found.value), StatusOK))
  {
    var id := URLParam(r, "id");
    match st.world.retrieveProduct(id)
    case Failure(e) => Outcome(st, Some(Translate(e, "looking for product " + id)))
    case Success(prod) => Respond(ctx, st, Record(prod), StatusOK)
  }

  /** Create: claims first, then the body; a repository failure is returned as
      it is; otherwise 201 with the new product. */
  function Create(ctx: Ctx, st: State, r: Request): (o: Outcome)
    ensures ctx.claims.None? ==> o == Outcome(st, Some(ErrClaimsNotInContext))
    ensures ctx.claims.Some? && Decode(r.body.newProduct).Failure? ==>
      o == Outcome(st, Some(Decode(r.body.newProduct).error))
    ensures ctx.claims.Some? && Decode(r.body.newProduct).Success? ==>
      var created := st.world.createProduct(ctx.claims.value, Decode(r.body.newProduct).value, st.world.handlerTime);
      (created.Failure? ==> o == Outcome(st, Some(created.error))) &&
      (created.Success? ==> o == Respond(ctx, st, Record(created.value), StatusCreated))
  {
    if ctx.claims.None? then Outcome(st, Some(ErrClaimsNotInContext))
    else
      match Decode(r.body.newProduct)
      case Failure(e) => Outcome(st, Some(e))
      case Success(np) =>
        match st.world.createProduct(ctx.claims.value, np, st.world.handlerTime)
        case Failure(e) => Outcome(st, Some(e))
        case Success(prod) => Respond(ctx, st, Record(prod), StatusCreated)
  }

  /** UpdateProduct: claims first, then the body; failures of the update are
      translated; otherwise 200 with the updated product. */
  function UpdateProduct(ctx: Ctx, st: State, r: Request): (o: Outcome)
    ensures ctx.claims.None? ==> o == Outcome(st, Some(ErrClaimsNotInContext))
    ensures ctx.claims.Some? && Decode(r.body.productUpdate).Failure? ==>
      o == Outcome(st, Some(Decode(r.body.productUpdate).error))
    ensures ctx.claims.Some? && Decode(r.body.productUpdate).Success? ==>
      var id := URLParam(r, "id");
      var updated := st.world.updateProduct(ctx.claims.value, id, Decode(r.body.productUpdate).value, st.world.handlerTime);
      (updated.Failure? ==> o == Outcome(st, Some(Translate(updated.error, "updating product " + id)))) &&
      (updated.Success? ==> o == Respond(ctx, st, Record(updated.value), StatusOK))
  {
    if ctx.claims.None? then Outcome(st, Some(ErrClaimsNotInContext))
    else
      var id := URLParam(r, "id");
      match Decode(r.body.productUpdate)
      case Failure(e) => Outcome(st, Some(e))
      case Success(updates) =>
        match st.world.updateProduct(ctx.claims.value, id, updates, st.world.handlerTime)
        case Failure(e) => Outcome(st, Some(Translate(e, "updating product " + id)))
        case Success(prod) => Respond(ctx, st, Record(prod), StatusOK)
  }

  /** DeleteProduct: a repository failure is returned untranslated; otherwise
      204 and no body. */
  function DeleteProduct(ctx: Ctx, st: State, r: Request): (o: Outcome)
    ensures st.world.deleteProduct(URLParam(r, "id")).Some? ==>
      o == Outcome(st, st.world.deleteProduct(URLParam(r, "id")))
    ensures st.world.deleteProduct(URLParam(r, "id")).None? ==> o == Respond(ctx, st, NoValue, StatusNoContent)
  {
    match st.world.deleteProduct(URLParam(r, "id"))
    case Some(e) => Outcome(st, Some(e))
    case None => Respond(ctx, st, NoValue, StatusNoContent)
  }

  /** AddSale: the body is decoded before the `product_id` parameter is looked
      at; the sale is added to the table; failures are translated; otherwise
      201 with the new sale. */
  function AddSale(ctx: Ctx, st: State, r: Request): (o: Outcome)
    ensures Decode(r.body.newSale).Failure? ==> o == Outcome(st, Some(Decode(r.body.newSale).error))
    ensures Decode(r.body.newSale).Success? ==>
      var id := URLParam(r, "product_id");
      var added := AddSaleTo(st.db.sales, Decode(r.body.newSale).value, id, st.world.handlerTime,
                             st.world.saleId, st.world.insertSale);
      (added.1.Failure? ==> o == Outcome(st, Some(Translate(added.1.error, "looking for product " + id)))) &&
      (added.1.Success? ==>
        o == Respond(ctx, st.(db := st.db.(sales := added.0)), SaleValue(added.1.value), StatusCreated))
  {
    match Decode(r.body.newSale)
    case Failure(e) => Outcome(st, Some(e))
    case Success(ns) =>
      var id := URLParam(r, "product_id");
      var added := AddSaleTo(st.db.sales, ns, id, st.world.handlerTime, st.world.saleId, st.world.insertSale);
      match added.1
      case Failure(e) => Outcome(st, Some(Translate(e, "looking for product " + id)))
      case Success(sale) => Respond(ctx, st.(db := st.db.(sales := added.0)), SaleValue(sale), StatusCreated)
  }

  /** ListSales: the sales of the product named by `product_id`, 200; failures
      translated. */
  function ListSales(ctx: Ctx, st: State, r: Request): (o: Outcome)
    ensures var id := URLParam(r, "product_id");
      var listed := ListSalesOf(st.db.sales, id, st.world.selectSalesErr);
      (listed.Failure? ==> o == Outcome(st, Some(Translate(listed.error, "looking for product " + id)))) &&
      (listed.Success? ==> o == Respond(ctx, st, SalesValue(listed.value), StatusOK))
  {
    var id := URLParam(r, "product_id");
    match ListSalesOf(st.db.sales, id, st.world.selectSalesErr)
    case Failure(e) => Outcome(st, Some(Translate(e, "looking for product " + id)))
    case Success(sales) => Respond(ctx, st, SalesValue(sales), StatusOK)
  }

  /** List, Retrieve, UpdateProduct and ListSales record 200 when they succeed. */
  lemma OkStatuses(ctx: Ctx, st: State, r: Request)
    ensures List(ctx, st, r).err.None? ==> List(ctx, st, r).st.values.statusCode == StatusOK
    ensures Retrieve(ctx, st, r).err.None? ==> Retrieve(ctx, st, r).st.values.statusCode == StatusOK
    ensures UpdateProduct(ctx, st, r).err.None? ==> UpdateProduct(ctx, st, r).st.values.statusCode == StatusOK
    ensures ListSales(ctx, st, r).err.None? ==> ListSales(ctx, st, r).st.values.statusCode == StatusOK
  {
  }

  /** Create and AddSale record 201 when they succeed. */
  lemma CreatedStatuses(ctx: Ctx, st: State, r: Request)
    ensures Create(ctx, st, r).err.None? ==> Create(ctx, st, r).st.values.statusCode == StatusCreated
    ensures AddSale(ctx, st, r).err.None? ==> AddSale(ctx, st, r).st.values.statusCode == StatusCreated
  {
  }

  /** DeleteProduct records 204 when it succeeds, and sends no body. */
  lemma DeleteStatus(ctx: Ctx, st: State, r: Request)
    ensures DeleteProduct(ctx, st, r).err.None? ==>
      DeleteProduct(ctx, st, r).st.values.statusCode == StatusNoContent
    ensures DeleteProduct(ctx, st, r).err.None? && st.writer.Fresh() ==>
      DeleteProduct(ctx, st, r).st.writer.body == []
  {
  }

  /** A malformed body is reported by AddSale even when the product id is not
      an integer either, and nothing is added. */
  lemma AddSaleReportsBodyFirst(ctx: Ctx, st: State, r: Request)
    requires Decode(r.body.newSale).Failure?
    ensures AddSale(ctx, st, r) == Outcome(st, Some(Decode(r.body.newSale).error))
  {
  }

  /** With a good body, a product id that is not an integer is a 400 and the
      table is unchanged; an insert the database refuses (with an error of its
      own, not a web error) is a 500, and the table is unchanged. */
  lemma AddSaleFailures(ctx: Ctx, st: State, r: Request)
    requires Decode(r.body.newSale).Success?
    ensures Strconv.Atoi(URLParam(r, "product_id")).None? ==>
      AddSale(ctx, st, r) == Outcome(st, Some(NewRequestError(Sales.ErrInvalidId, StatusBadRequest))) &&
      ErrorStatus(AddSale(ctx, st, r).err.value) == StatusBadRequest
    ensures var id := URLParam(r, "product_id");
      var ns := Decode(r.body.newSale).value;
      Strconv.Atoi(id).Some? ==>
        var refused := st.world.insertSale(Sale(st.world.saleId, Strconv.Atoi(id).value, ns.quantity, ns.paid, st.world.handlerTime));
        refused.Some? && !Cause(refused.value).WebError? ==>
          AddSale(ctx, st, r).st == st &&
          ErrorStatus(AddSale(ctx, st, r).err.value) == StatusInternalServerError
  {
    var id := URLParam(r, "product_id");
    var added := AddSaleTo(st.db.sales, Decode(r.body.newSale).value, id, st.world.handlerTime,
                           st.world.saleId, st.world.insertSale);
    if added.1.Failure? {
      TranslateStatus(added.1.error, "looking for product " + id);
      if added.1.error.Wrapped? {
        CauseOfWrap(added.1.error.msg, added.1.error.inner);
      }
    }
  }
}
