/**
 * The `ProductManager` component as a state machine: its five pieces of
 * state are the fields of a class and each event handler is a method that
 * performs the handler's state updates as one sequential transition.
 */
module Manager {
  import opened Wrappers
  import opened JsValues
  import opened Products

  /** The two kinds of banner. */
  datatype Severity = Success | Error

  /** The banner that is shown: `{message, type}`. */
  datatype Notice = Notice(message: string, kind: Severity)

  const FillAllFields: string := "Por favor, preencha todos os campos"
  const ProductAdded: string := "Produto adicionado com sucesso!"
  const ProductUpdated: string := "Produto atualizado com sucesso!"
  const ProductDeleted: string := "Produto excluído com sucesso!"

  class ProductManager {
    /** The collection shown as cards. */
    var products: seq<Product>
    /** Whether the edit dialog is shown. */
    var isModalOpen: bool
    /** The edit buffer; `None` until the first edit starts. */
    var editingProduct: Option<Product>
    /** The banner; `None` when none is shown. */
    var notification: Option<Notice>
    /** The create form's draft. */
    var newProduct: Draft
    /** The browser's `parseFloat`, left uninterpreted. */
    const parseFloat: string -> Number

    /** The invariant the two presence checks maintain: every product is named. */
    ghost predicate Valid()
      reads this
    {
      NamesPresent(products)
    }

    /** The component's first render. */
    constructor (parseFloat: string -> Number)
      ensures Valid()
      ensures this.parseFloat == parseFloat
      ensures products == InitialProducts
      ensures !isModalOpen && editingProduct == None && notification == None
      ensures newProduct == EmptyDraft
    {
      this.parseFloat := parseFloat;
      products := InitialProducts;
      isModalOpen := false;
      editingProduct := None;
      notification := None;
      newProduct := EmptyDraft;
    }

    /** `showNotification`: the new banner replaces any banner shown; the timed dismissal is not modelled. */
    method ShowNotification(message: string, kind: Severity)
      modifies this`notification
      ensures notification == Some(Notice(message, kind))
    {
      notification := Some(Notice(message, kind));
    }

    /** The banner's close button. */
    method DismissNotification()
      modifies this`notification
      ensures notification == None
    {
      notification := None;
    }

    /** `handleInputChange`: an input event of the create form changes only the draft. */
    method HandleInputChange(field: string, value: string, firstFileUrl: Option<string>)
      modifies this`newProduct
      ensures newProduct == DraftAfterInput(old(newProduct), field, value, firstFileUrl)
    {
      newProduct := DraftAfterInput(newProduct, field, value, firstFileUrl);
    }

    /**
     * `handleSubmit`: with a name and a price the draft is appended as a new
     * product, the draft is reset and a success banner is shown; otherwise
     * only an error banner is shown.
     */
    method HandleSubmit()
      requires Valid()
      modifies this`products, this`newProduct, this`notification
      ensures Valid()
      ensures !DraftFilled(old(newProduct)) ==>
        && products == old(products)
        && newProduct == old(newProduct)
        && notification == Some(Notice(FillAllFields, Error))
      ensures DraftFilled(old(newProduct)) ==>
        && products == AppendProduct(old(products), old(newProduct), parseFloat)
        && newProduct == EmptyDraft
        && notification == Some(Notice(ProductAdded, Success))
    {
      if !DraftFilled(newProduct) {
        ShowNotification(FillAllFields, Error);
        return;
      }
      AppendProductKeepsNames(products, newProduct, parseFloat);
      products := AppendProduct(products, newProduct, parseFloat);
      newProduct := EmptyDraft;
      ShowNotification(ProductAdded, Success);
    }

    /** `startEdit`: a copy of the product becomes the edit buffer and the dialog opens. */
    method StartEdit(p: Product)
      modifies this`editingProduct, this`isModalOpen
      ensures editingProduct == Some(p)
      ensures isModalOpen
    {
      editingProduct := Some(p);
      isModalOpen := true;
    }

    /** The edit form's name input. */
    method ChangeEditName(value: string)
      requires isModalOpen && editingProduct.Some?
      modifies this`editingProduct
      ensures editingProduct == Some(old(editingProduct.value).(name := value))
    {
      editingProduct := Some(editingProduct.value.(name := value));
    }

    /**
     * The edit form's price input: `parseFloat(value) || 0`. The buffer's
     * price is never NaN afterwards, and it passes the presence check exactly
     * when the parsed value is neither 0 nor NaN.
     */
    method ChangeEditPrice(value: string)
      requires isModalOpen && editingProduct.Some?
      modifies this`editingProduct
      ensures editingProduct == Some(old(editingProduct.value).(price := OrZero(parseFloat(value))))
      ensures editingProduct.value.price.Finite?
      ensures NumberTruthy(editingProduct.value.price) <==> NumberTruthy(parseFloat(value))
    {
      editingProduct := Some(editingProduct.value.(price := OrZero(parseFloat(value))));
    }

    /** `handleEditImageChange`: with a selected file only the buffer's image changes. */
    method HandleEditImageChange(firstFileUrl: Option<string>)
      requires isModalOpen && editingProduct.Some?
      modifies this`editingProduct
      ensures firstFileUrl.None? ==> editingProduct == old(editingProduct)
      ensures firstFileUrl.Some? ==>
        editingProduct == Some(old(editingProduct.value).(imageUrl := firstFileUrl.value))
    {
      if firstFileUrl.Some? {
        var newImageUrl := firstFileUrl.value;
        editingProduct := Some(editingProduct.value.(imageUrl := newImageUrl));
      }
    }

    /**
     * `handleEdit`: with a name and a non-zero price every product with the
     * buffer's id is replaced by the buffer, the dialog closes and a success
     * banner is shown; otherwise only an error banner is shown and the
     * dialog stays open.
     */
    method HandleEdit()
      requires Valid()
      requires isModalOpen && editingProduct.Some?
      modifies this`products, this`isModalOpen, this`notification
      ensures Valid()
      ensures !BufferFilled(editingProduct.value) ==>
        && products == old(products)
        && isModalOpen
        && notification == Some(Notice(FillAllFields, Error))
      ensures BufferFilled(editingProduct.value) ==>
        && products == ReplaceById(old(products), editingProduct.value)
        && !isModalOpen
        && notification == Some(Notice(ProductUpdated, Success))
    {
      var buffer := editingProduct.value;
      if !BufferFilled(buffer) {
        ShowNotification(FillAllFields, Error);
        return;
      }
      ReplaceByIdKeepsNames(products, buffer);
      products := ReplaceById(products, buffer);
      isModalOpen := false;
      ShowNotification(ProductUpdated, Success);
    }

    /** `handleDelete`: every product with the id is removed and a success banner is shown. */
    method HandleDelete(id: int)
      requires Valid()
      modifies this`products, this`notification
      ensures Valid()
      ensures products == RemoveById(old(products), id)
      ensures notification == Some(Notice(ProductDeleted, Success))
    {
      RemoveByIdKeepsNames(products, id);
      products := RemoveById(products, id);
      ShowNotification(ProductDeleted, Success);
    }

    /** The dialog's X and Cancel buttons: the dialog closes; the buffer is kept. */
    method CloseModal()
      modifies this`isModalOpen
      ensures !isModalOpen
    {
      isModalOpen := false;
    }
  }

  /**
   * From the initial collection, creating
   * "Tablet" at "499.5" appends it with id 2, and deleting id 1 leaves it
   * alone.
   */
  method CreateThenDeleteExample(parse: string -> Number) returns (afterCreate: seq<Product>, afterDelete: seq<Product>)
    ensures afterCreate == InitialProducts + [Product(2, "Tablet", parse("499.5"), Placeholder)]
    ensures afterDelete == [Product(2, "Tablet", parse("499.5"), Placeholder)]
  {
    var m := new ProductManager(parse);
    m.HandleInputChange("name", "Tablet", None);
    m.HandleInputChange("price", "499.5", None);
    m.HandleSubmit();
    afterCreate := m.products;
    m.HandleDelete(1);
    afterDelete := m.products;
    assert afterCreate[0].id == 1;
    assert afterCreate[1..] == [afterCreate[1]];
  }

  /**
   * Ids come from the length of the collection: after creating a second
   * product, deleting the first and creating another, two products share
   * id 2.
   */
  method DuplicateIdScenario(parse: string -> Number) returns (ids: seq<int>)
    ensures ids == [2, 2]
  {
    var m := new ProductManager(parse);
    m.HandleInputChange("name", "Tablet", None);
    m.HandleInputChange("price", "499.5", None);
    m.HandleSubmit();
    m.HandleDelete(1);
    m.HandleInputChange("name", "Fone", None);
    m.HandleInputChange("price", "10", None);
    m.HandleSubmit();
    ids := Ids(m.products);
  }

  /**
   * A rejected edit followed by Cancel: the collection is as before, the
   * dialog is closed, and the edit buffer still holds the rejected edit.
   */
  method CancelEditScenario(parse: string -> Number, p: Product)
    returns (products: seq<Product>, buffer: Option<Product>, open: bool)
    ensures products == InitialProducts
    ensures buffer == Some(p.(name := ""))
    ensures !open
  {
    var m := new ProductManager(parse);
    m.StartEdit(p);
    m.ChangeEditName("");
    m.HandleEdit();
    assert m.isModalOpen;
    m.CloseModal();
    products, buffer, open := m.products, m.editingProduct, m.isModalOpen;
  }
}
