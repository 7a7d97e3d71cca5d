/**
 * The product edit sheet (UpdateProductUi.tsx): its form state, the load from
 * the product being edited, the reset, the list and image-slot edits, and the
 * guard in front of the submit.
 */
module UpdateProductUi {
  import opened Wrappers
  import opened Text
  import opened ProductFormLists

  /**
   * The product handed to the sheet; the server may leave any field out.
   * `price` is a whole number of dinars, so `String(price)` is its decimal digits.
   */
  datatype InitialProduct = InitialProduct(
    id: Option<string>,
    name: Option<string>,
    smallDesc: Option<string>,
    bigDesc: Option<string>,
    price: Option<int>,
    prodClass: Option<string>,
    available: Option<bool>,
    sizes: Option<seq<string>>,
    colors: Option<seq<string>>,
    mainImage: Option<string>,
    extraImages: Option<seq<string>>)

  /** The object handed to onSubmit; the image fields hold fixed placeholder text. */
  datatype UpdateRequest = UpdateRequest(
    name: string,
    smallDesc: string,
    bigDesc: string,
    price: Parsed,
    prodClass: string,
    sizes: seq<string>,
    colors: seq<string>,
    owner: string,
    mainImage: string,
    extraImages: seq<string>)

  const PlaceholderMainImage := "dsfsdfsdfsdfsdf"
  const PlaceholderExtraImages := ["sdfsdfsdfs", "dsfsfsdfsdf"]

  /** `initialProduct.price ? String(initialProduct.price) : ''`: zero and a missing price both give the empty text. */
  function PriceText(price: Option<int>): (r: string)
    ensures price.None? || price.value == 0 ==> r == ""
    ensures price.Some? && price.value > 0 ==>
      (forall k :: 0 <= k < |r| ==> IsDigit(r[k])) && DigitsValue(r) == price.value
    ensures price.Some? && price.value < 0 ==>
      && |r| > 1 && r[0] == '-'
      && (forall k :: 1 <= k < |r| ==> IsDigit(r[k])) && DigitsValue(r[1..]) == -price.value
  {
    if price.Some? && price.value != 0 then IntToString(price.value) else ""
  }

  class UpdateProductForm {
    var name: string
    var smallDesc: string
    var bigDesc: string
    var price: string
    var classification: string
    var available: bool
    var sizes: seq<string>
    var colors: seq<string>
    var newColor: string
    var mainImage: Option<File>
    var mainImagePreview: Option<string>
    var currentMainImage: Option<string>
    var extraImages: seq<Option<File>>
    var extraImagePreviews: seq<Option<string>>
    var currentExtraImages: seq<string>

    /** The defaults resetForm restores: empty texts and lists, available, no images, three empty slots. */
    predicate IsReset()
      reads this
    {
      && name == "" && smallDesc == "" && bigDesc == "" && price == "" && classification == ""
      && available
      && mainImage == None && mainImagePreview == None && currentMainImage == None
      && extraImages == [None, None, None] && extraImagePreviews == [None, None, None]
      && currentExtraImages == []
      && sizes == [] && colors == [] && newColor == ""
    }

    /** Both slot lists keep their three entries. */
    predicate SlotsValid()
      reads this
    {
      |extraImages| == SlotCount && |extraImagePreviews| == SlotCount
    }

    constructor ()
      ensures IsReset() && SlotsValid()
    {
      name, smallDesc, bigDesc, price, classification := "", "", "", "", "";
      available := true;
      sizes, colors, newColor := [], [], "";
      mainImage, mainImagePreview, currentMainImage := None, None, None;
      extraImages, extraImagePreviews := [None, None, None], [None, None, None];
      currentExtraImages := [];
    }

    /** resetForm */
    method ResetForm()
      modifies this
      ensures IsReset() && SlotsValid()
    {
      ResetTexts();
      ResetImages();
    }

    method ResetTexts()
      modifies this`name, this`smallDesc, this`bigDesc, this`price, this`classification, this`available
      modifies this`sizes, this`colors, this`newColor
      ensures name == "" && smallDesc == "" && bigDesc == "" && price == "" && classification == ""
      ensures available && sizes == [] && colors == [] && newColor == ""
    {
      name := "";
      smallDesc := "";
      bigDesc := "";
      price := "";
      classification := "";
      available := true;
      sizes := [];
      colors := [];
      newColor := "";
    }

    method ResetImages()
      modifies this`mainImage, this`mainImagePreview, this`currentMainImage
      modifies this`extraImages, this`extraImagePreviews, this`currentExtraImages
      ensures mainImage == None && mainImagePreview == None && currentMainImage == None
      ensures extraImages == [None, None, None] && extraImagePreviews == [None, None, None]
      ensures currentExtraImages == []
    {
      mainImage := None;
      mainImagePreview := None;
      currentMainImage := None;
      extraImages := [None, None, None];
      extraImagePreviews := [None, None, None];
      currentExtraImages := [];
    }

    /**
     * The effect on `open` and `initialProduct`: when the sheet is open with
     * a product, its fields are copied in, with `''`, `[]`, `null` and
     * `true` for the missing ones; otherwise nothing changes. The chosen
     * files, the previews and the colour input are left alone.
     */
    method LoadInitial(open: bool, initial: Option<InitialProduct>)
      modifies this`name, this`smallDesc, this`bigDesc, this`price, this`classification, this`available
      modifies this`sizes, this`colors, this`currentMainImage, this`currentExtraImages
      ensures !(open && initial.Some?) ==> unchanged(this)
      ensures open && initial.Some? ==>
        var p := initial.value;
        && name == p.name.GetOr("") && smallDesc == p.smallDesc.GetOr("") && bigDesc == p.bigDesc.GetOr("")
        && price == PriceText(p.price) && classification == p.prodClass.GetOr("")
        && available == p.available.GetOr(true)
        && sizes == p.sizes.GetOr([]) && colors == p.colors.GetOr([])
        && currentMainImage == p.mainImage && currentExtraImages == p.extraImages.GetOr([])
    {
      if open && initial.Some? {
        var p := initial.value;
        name := p.name.GetOr("");
        smallDesc := p.smallDesc.GetOr("");
        bigDesc := p.bigDesc.GetOr("");
        price := PriceText(p.price);
        classification := p.prodClass.GetOr("");
        available := p.available.GetOr(true);
        sizes := p.sizes.GetOr([]);
        colors := p.colors.GetOr([]);
        currentMainImage := p.mainImage;
        currentExtraImages := p.extraImages.GetOr([]);
      }
    }

    /**
     * handleUpdateProduct: nothing is submitted when the product has no id
     * (missing or empty); otherwise the id and the form's values go to
     * onSubmit. `parsedPrice` is `parseFloat` of the price text.
     */
    method HandleUpdateProduct(initial: Option<InitialProduct>, ownerId: string, parsedPrice: Parsed)
      returns (submitted: Option<(string, UpdateRequest)>)
      ensures initial.None? || initial.value.id.None? || initial.value.id.value == "" ==> submitted == None
      ensures initial.Some? && initial.value.id.Some? && initial.value.id.value != "" ==>
        submitted == Some((initial.value.id.value,
          UpdateRequest(name, smallDesc, bigDesc, parsedPrice, classification, sizes, colors, ownerId,
            PlaceholderMainImage, PlaceholderExtraImages)))
    {
      if initial.None? || initial.value.id.None? || initial.value.id.value == "" {
        return None;
      }
      var data := UpdateRequest(name, smallDesc, bigDesc, parsedPrice, classification, sizes, colors, ownerId,
        PlaceholderMainImage, PlaceholderExtraImages);
      submitted := Some((initial.value.id.value, data));
    }

    /** handleOpenChange: closing the sheet resets the form. */
    method HandleOpenChange(isOpen: bool)
      modifies this
      ensures !isOpen ==> IsReset() && SlotsValid()
      ensures isOpen ==> unchanged(this)
    {
      if !isOpen {
        ResetForm();
      }
    }

    method ToggleSize(size: string)
      modifies this`sizes
      ensures sizes == Toggled(old(sizes), size)
    {
      sizes := Toggled(sizes, size);
    }

    method AddColorFromInput()
      modifies this`colors, this`newColor
      ensures (colors, newColor) == AddColor(old(colors), old(newColor))
    {
      var t := Trim(newColor);
      if t != "" && t !in colors {
        colors := colors + [t];
        newColor := "";
      }
    }

    method RemoveColor(index: int)
      modifies this`colors
      ensures colors == RemoveAt(old(colors), index)
    {
      colors := RemoveAt(colors, index);
    }

    /** removeMainImage: the chosen file and its preview go; the product's current image stays. */
    method RemoveMainImage()
      modifies this`mainImage, this`mainImagePreview
      ensures mainImage == None && mainImagePreview == None
    {
      mainImage := None;
      mainImagePreview := None;
    }

    /** removeExtraImage: slot `index` of both lists becomes empty; every other slot is kept. */
    method RemoveExtraImage(index: nat)
      requires SlotsValid() && index < SlotCount
      modifies this`extraImages, this`extraImagePreviews
      ensures SlotsValid()
      ensures extraImages[index] == None && extraImagePreviews[index] == None
      ensures forall k :: 0 <= k < SlotCount && k != index ==>
        extraImages[k] == old(extraImages[k]) && extraImagePreviews[k] == old(extraImagePreviews[k])
    {
      var newImages := extraImages;
      newImages := newImages[index := None];
      extraImages := newImages;
      var newPreviews := extraImagePreviews;
      newPreviews := newPreviews[index := None];
      extraImagePreviews := newPreviews;
    }
  }

  /** Loading a product with neither id nor price: the price text is empty and the submit is skipped. */
  method LoadThenSubmitWithoutId(p: InitialProduct, ownerId: string) returns (priceText: string, submitted: Option<(string, UpdateRequest)>)
    requires p.id.None? && p.price.None?
    ensures priceText == "" && submitted == None
  {
    var form := new UpdateProductForm();
    form.LoadInitial(true, Some(p));
    priceText := form.price;
    submitted := form.HandleUpdateProduct(Some(p), ownerId, NaN);
  }
}
