/** The seller's product editor: required fields, the add-or-update branch,
    which image address ends up in the record, and the field resets. */
module ProductForm {
  import opened Common

  const ErrRequired: string := "Product name, price, and category are required."
  const ErrImageRequired: string := "Please select an image for your new product."
  const UploadFailedPrefix: string := "Image upload failed: "
  const MsgUpdated: string := "Product updated successfully!"
  const MsgAdded: string := "Product added successfully!"

  /** The product being edited, as stored; any field may be missing. */
  datatype ProductData = ProductData(id: Option<string>, name: Option<string>, price: Option<string>,
                                     description: Option<string>, image: Option<string>, category: Option<string>)

  /** The fields written by `updateDoc` (the timestamp comes from the server). */
  datatype ProductUpdate = ProductUpdate(name: string, price: int, description: string, image: Option<string>,
                                         category: string)

  /** The fields written by `addDoc` for a new product. */
  datatype NewProduct = NewProduct(sellerId: Option<string>, name: string, price: int, description: string,
                                   image: string, category: string)

  datatype Outcome =
    | MissingFields
    | MissingImage
    | UploadFailed
    | Updated(id: string, update: ProductUpdate)
    | Added(product: NewProduct)

  /** The stored product has an id, so the submit updates it. */
  predicate IsUpdate(initialData: Option<ProductData>)
  {
    initialData.Some? && Truthy(initialData.value.id)
  }

  /** `handleSubmit` as a function of the form's values; `upload` stands for what
      the image host returns and `parsePrice` for `parseFloat`. */
  function Submit(name: string, price: string, description: string, category: string, imageFile: bool,
                  userId: Option<string>, initialData: Option<ProductData>, upload: Option<string>,
                  parsePrice: string -> int): Outcome
  {
    if name == "" || price == "" || category == "" then MissingFields
    else if IsUpdate(initialData) then
      if imageFile && !Truthy(upload) then UploadFailed
      else
        var imageUrl := if imageFile then upload else initialData.value.image;
        Updated(initialData.value.id.value, ProductUpdate(name, parsePrice(price), description, imageUrl, category))
    else if !imageFile then MissingImage
    else if !Truthy(upload) then UploadFailed
    else Added(NewProduct(userId, name, parsePrice(price), description, upload.value, category))
  }

  /** Empty name, price or category is rejected before anything else. */
  lemma RequiredFieldsFirst(name: string, price: string, description: string, category: string, imageFile: bool,
                            userId: Option<string>, initialData: Option<ProductData>, upload: Option<string>,
                            parsePrice: string -> int)
    ensures (Submit(name, price, description, category, imageFile, userId, initialData, upload, parsePrice)
             == MissingFields) <==> (name == "" || price == "" || category == "")
  {
  }

  /** A new product needs an image file; an update never asks for one. */
  lemma NewProductNeedsImage(name: string, price: string, description: string, category: string, imageFile: bool,
                             userId: Option<string>, initialData: Option<ProductData>, upload: Option<string>,
                             parsePrice: string -> int)
    ensures var o := Submit(name, price, description, category, imageFile, userId, initialData, upload, parsePrice);
            && (o == MissingImage <==>
                  name != "" && price != "" && category != "" && !IsUpdate(initialData) && !imageFile)
            && (o.Added? ==> imageFile && !IsUpdate(initialData))
  {
  }

  /** An update writes the stored product's id, the form's fields, and as image
      the new upload when a file was chosen, otherwise the stored image unchanged. */
  lemma UpdateKeepsImage(name: string, price: string, description: string, category: string, imageFile: bool,
                         userId: Option<string>, initialData: Option<ProductData>, upload: Option<string>,
                         parsePrice: string -> int)
    ensures var o := Submit(name, price, description, category, imageFile, userId, initialData, upload, parsePrice);
            && (o.Updated? <==>
                  name != "" && price != "" && category != "" && IsUpdate(initialData) && (imageFile ==> Truthy(upload)))
            && (o.Updated? ==>
                  && o.id == initialData.value.id.value
                  && o.update.name == name && o.update.price == parsePrice(price)
                  && o.update.description == description && o.update.category == category
                  && (!imageFile ==> o.update.image == initialData.value.image)
                  && (imageFile ==> o.update.image == upload))
  {
  }

  /** A new product belongs to the signed-in seller and carries the form's
      fields and the uploaded image's address. */
  lemma AddCarriesSeller(name: string, price: string, description: string, category: string, imageFile: bool,
                         userId: Option<string>, initialData: Option<ProductData>, upload: Option<string>,
                         parsePrice: string -> int)
    ensures var o := Submit(name, price, description, category, imageFile, userId, initialData, upload, parsePrice);
            && (o.Added? <==>
                  name != "" && price != "" && category != "" && !IsUpdate(initialData) && imageFile && Truthy(upload))
            && (o.Added? ==> o.product == NewProduct(userId, name, parsePrice(price), description, upload.value,
                                                     category))
  {
  }

  /** The notice shown when a submit ends; `uploadError` is the image host's
      error text, which the uploader puts after its prefix. */
  function ToastText(o: Outcome, uploadError: string): string
  {
    match o
    case MissingFields => ErrRequired
    case MissingImage => ErrImageRequired
    case UploadFailed => UploadFailedPrefix + uploadError
    case Updated(_, _) => MsgUpdated
    case Added(_) => MsgAdded
  }

  /** The editor's state. */
  class Editor {
    var name: string
    var price: string
    var description: string
    var category: string
    var imageFile: bool
    var previewUrl: string
    var loading: bool
    var userId: Option<string>
    var toast: string
    const initialData: Option<ProductData>

    /** Every field empty, no file chosen. */
    predicate Cleared()
      reads this
    {
      name == "" && price == "" && description == "" && category == "" && previewUrl == "" && !imageFile
    }

    constructor (initialData: Option<ProductData>)
      ensures this.initialData == initialData && Cleared() && !loading && userId.None? && toast == ""
    {
      toast := "";
      this.initialData := initialData;
      name, price, description, category, previewUrl := "", "", "", "", "";
      imageFile, loading, userId := false, false, None;
    }

    /** The effect on `initialData`: load the stored product's fields (missing
        ones as '') or, without a stored product, clear every field. */
    method ResetFromInitialData()
      modifies this
      ensures initialData.None? ==> Cleared()
      ensures initialData.Some? ==>
                && name == OrEmpty(initialData.value.name) && price == OrEmpty(initialData.value.price)
                && description == OrEmpty(initialData.value.description)
                && previewUrl == OrEmpty(initialData.value.image)
                && category == OrEmpty(initialData.value.category) && !imageFile
      ensures loading == old(loading) && userId == old(userId) && toast == old(toast)
    {
      if initialData.Some? {
        var d := initialData.value;
        name := OrDefault(d.name, "");
        price := OrDefault(d.price, "");
        description := OrDefault(d.description, "");
        previewUrl := OrDefault(d.image, "");
        category := OrDefault(d.category, "");
        imageFile := false;
      } else {
        name := "";
        price := "";
        description := "";
        previewUrl := "";
        category := "";
        imageFile := false;
      }
    }

    /** `handleImageChange`: a chosen file replaces the preview with its local address. */
    method HandleImageChange(fileChosen: bool, objectUrl: string)
      modifies this
      ensures fileChosen ==> imageFile && previewUrl == objectUrl
      ensures !fileChosen ==> imageFile == old(imageFile) && previewUrl == old(previewUrl)
      ensures name == old(name) && price == old(price) && description == old(description)
      ensures category == old(category) && loading == old(loading) && userId == old(userId)
      ensures toast == old(toast)
    {
      if fileChosen {
        imageFile := true;
        previewUrl := objectUrl;
      }
    }

    /** `handleSubmit`, with the backend writes taken to succeed. */
    method HandleSubmit(upload: Option<string>, uploadError: string, parsePrice: string -> int)
      returns (outcome: Outcome)
      modifies this
      ensures outcome == Submit(old(name), old(price), old(description), old(category), old(imageFile),
                                userId, initialData, upload, parsePrice)
      ensures toast == ToastText(outcome, uploadError)
      ensures !loading && userId == old(userId)
      ensures outcome.Added? ==> Cleared()
      ensures !outcome.Added? ==>
                && name == old(name) && price == old(price) && description == old(description)
                && category == old(category) && previewUrl == old(previewUrl) && imageFile == old(imageFile)
    {
      loading := true;
      if name == "" || price == "" || category == "" {
        toast := ErrRequired;
        loading := false;
        return MissingFields;
      }
      if initialData.Some? && Truthy(initialData.value.id) {
        var imageUrl := initialData.value.image;
        if imageFile {
          imageUrl := upload;
          if !Truthy(imageUrl) {
            toast := UploadFailedPrefix + uploadError;
            loading := false;
            return UploadFailed;
          }
        }
        outcome := Updated(initialData.value.id.value,
                           ProductUpdate(name, parsePrice(price), description, imageUrl, category));
        toast := MsgUpdated;
      } else {
        if !imageFile {
          toast := ErrImageRequired;
          loading := false;
          return MissingImage;
        }
        var imageUrl := upload;
        if !Truthy(imageUrl) {
          toast := UploadFailedPrefix + uploadError;
          loading := false;
          return UploadFailed;
        }
        outcome := Added(NewProduct(userId, name, parsePrice(price), description, imageUrl.value, category));
        toast := MsgAdded;
        name := "";
        price := "";
        description := "";
        previewUrl := "";
        category := "";
        imageFile := false;
      }
      loading := false;
    }
  }
}
