/**
 * The product creation dialog (CreateProductUi.tsx): its form state, the
 * reset, the list and image-slot edits, and the FormData the submit
 * assembles before it resets the form.
 */
module CreateProductUi {
  import opened Wrappers
  import opened Text
  import opened ProductFormLists

  /** A FormData value: plain text, a list sent as JSON text, or a file. */
  datatype FormValue = TextValue(text: string) | JsonList(items: seq<string>) | FileValue(file: File)

  datatype Entry = Entry(key: string, value: FormValue)

  /** The seller id the form starts with. */
  const DefaultOwnerId := "019c4452-fa9c-7786-8914-d7292191dcd8"

  /** The values handleCreateProduct reads from the form. */
  datatype CreateFields = CreateFields(
    name: string,
    smallDesc: string,
    bigDesc: string,
    price: string,
    classification: string,
    sizes: seq<string>,
    colors: seq<string>,
    ownerId: string,
    mainImage: Option<File>,
    extraImages: seq<Option<File>>)

  /** One `extraImages` entry per filled slot, in slot order. */
  function ExtraImageEntries(slots: seq<Option<File>>): (r: seq<Entry>)
    ensures |r| <= |slots|
    ensures forall e :: e in r ==> e.key == "extraImages" && e.value.FileValue? && Some(e.value.file) in slots
    ensures forall k :: 0 <= k < |slots| && slots[k].Some? ==> Entry("extraImages", FileValue(slots[k].value)) in r
  {
    if slots == [] then []
    else (if slots[0].Some? then [Entry("extraImages", FileValue(slots[0].value))] else []) + ExtraImageEntries(slots[1..])
  }

  lemma {:induction false} ExtraImageEntriesAppend(a: seq<Option<File>>, b: seq<Option<File>>)
    ensures ExtraImageEntries(a + b) == ExtraImageEntries(a) + ExtraImageEntries(b)
  {
    if a == [] {
      assert a + b == b;
    } else {
      assert (a + b)[1..] == a[1..] + b;
      ExtraImageEntriesAppend(a[1..], b);
    }
  }

  /** Empty slots add nothing. */
  lemma {:induction false} EmptySlotsAddNothing(slots: seq<Option<File>>)
    requires forall k :: 0 <= k < |slots| ==> slots[k].None?
    ensures ExtraImageEntries(slots) == []
  {
    if slots != [] {
      EmptySlotsAddNothing(slots[1..]);
    }
  }

  /** `extraImages.forEach(image => { if (image) formData.append("extraImages", image) })` */
  method AppendExtraImages(entries: seq<Entry>, slots: seq<Option<File>>) returns (r: seq<Entry>)
    ensures r == entries + ExtraImageEntries(slots)
  {
    r := entries;
    var k := 0;
    while k < |slots|
      invariant 0 <= k <= |slots|
      invariant r == entries + ExtraImageEntries(slots[..k])
    {
      ExtraImageEntriesAppend(slots[..k], [slots[k]]);
      assert slots[..k + 1] == slots[..k] + [slots[k]];
      assert ExtraImageEntries([slots[k]]) == (if slots[k].Some? then [Entry("extraImages", FileValue(slots[k].value))] else []) by {
        assert [slots[k]][1..] == [];
      }
      if slots[k].Some? {
        r := r + [Entry("extraImages", FileValue(slots[k].value))];
      }
      k := k + 1;
    }
    assert slots[..k] == slots;
  }

  /** The text entries, always eight, in the order they are appended. */
  function TextEntries(f: CreateFields): (r: seq<Entry>)
    ensures |r| == 8
  {
    [ Entry("name", TextValue(f.name)),
      Entry("smallDesc", TextValue(f.smallDesc)),
      Entry("bigDesc", TextValue(f.bigDesc)),
      Entry("price", TextValue(f.price)),
      Entry("prod_class", TextValue(f.classification)),
      Entry("sizes", JsonList(f.sizes)),
      Entry("colors", JsonList(f.colors)),
      Entry("owner", TextValue(f.ownerId)) ]
  }

  function MainImageEntry(f: CreateFields): seq<Entry> {
    if f.mainImage.Some? then [Entry("mainImage", FileValue(f.mainImage.value))] else []
  }

  /** Everything handleCreateProduct appends to the FormData, in order. */
  function Entries(f: CreateFields): seq<Entry> {
    TextEntries(f) + MainImageEntry(f) + ExtraImageEntries(f.extraImages)
  }

  /** The main image is sent exactly when one is chosen, right after the eight text entries. */
  lemma {:induction false} MainImageSentWhenChosen(f: CreateFields)
    ensures f.mainImage.Some? <==> Entry("mainImage", FileValue(f.mainImage.GetOr(File("")))) in Entries(f)
    ensures f.mainImage.Some? ==> Entries(f)[8] == Entry("mainImage", FileValue(f.mainImage.value))
    ensures |Entries(f)| == 8 + (if f.mainImage.Some? then 1 else 0) + |ExtraImageEntries(f.extraImages)|
  {
    var e := Entry("mainImage", FileValue(f.mainImage.GetOr(File(""))));
    if f.mainImage.None? {
      forall x | x in Entries(f) ensures x != e {
        if x in TextEntries(f) {
        } else {
          assert x in ExtraImageEntries(f.extraImages);
        }
      }
    }
  }

  /** With every slot empty only the text entries and the main image are sent. */
  lemma {:induction false} NoExtraImagesWhenSlotsEmpty(f: CreateFields)
    requires forall k :: 0 <= k < |f.extraImages| ==> f.extraImages[k].None?
    ensures Entries(f) == TextEntries(f) + MainImageEntry(f)
  {
    EmptySlotsAddNothing(f.extraImages);
  }

  /** The availability and sponsored switches are never sent. */
  lemma {:induction false} SwitchesNotSent(f: CreateFields)
    ensures forall e :: e in Entries(f) ==> e.key != "available" && e.key != "sponsored"
  {
  }

  class CreateProductForm {
    var name: string
    var ownerId: string
    var smallDesc: string
    var bigDesc: string
    var price: string
    var classification: string
    var available: bool
    var sponsored: bool
    var mainImage: Option<File>
    var mainImagePreview: Option<string>
    var extraImages: seq<Option<File>>
    var extraImagePreviews: seq<Option<string>>
    var sizes: seq<string>
    var colors: seq<string>
    var newColor: string

    /** The defaults resetForm restores; the owner id is not among them. */
    predicate IsReset()
      reads this
    {
      && name == "" && smallDesc == "" && bigDesc == "" && price == "" && classification == ""
      && available && !sponsored
      && mainImage == None && mainImagePreview == None
      && extraImages == [None, None, None] && extraImagePreviews == [None, None, None]
      && sizes == [] && colors == [] && newColor == ""
    }

    predicate SlotsValid()
      reads this
    {
      |extraImages| == SlotCount && |extraImagePreviews| == SlotCount
    }

    function Fields(): CreateFields
      reads this
    {
      CreateFields(name, smallDesc, bigDesc, price, classification, sizes, colors, ownerId, mainImage, extraImages)
    }

    constructor ()
      ensures IsReset() && SlotsValid() && ownerId == DefaultOwnerId
    {
      name, ownerId, smallDesc, bigDesc, price, classification := "", DefaultOwnerId, "", "", "", "";
      available, sponsored := true, false;
      mainImage, mainImagePreview := None, None;
      extraImages, extraImagePreviews := [None, None, None], [None, None, None];
      sizes, colors, newColor := [], [], "";
    }

    /** resetForm: every field but the owner id goes back to its default. */
    method ResetForm()
      modifies this`name, this`smallDesc, this`bigDesc, this`price, this`classification, this`available
      modifies this`sponsored, this`mainImage, this`mainImagePreview, this`extraImages, this`extraImagePreviews
      modifies this`sizes, this`colors, this`newColor
      ensures IsReset() && SlotsValid()
    {
      ResetTexts();
      ResetImages();
    }

    method ResetTexts()
      modifies this`name, this`smallDesc, this`bigDesc, this`price, this`classification, this`available
      modifies this`sponsored, this`sizes, this`colors, this`newColor
      ensures name == "" && smallDesc == "" && bigDesc == "" && price == "" && classification == ""
      ensures available && !sponsored && sizes == [] && colors == [] && newColor == ""
    {
      name := "";
      smallDesc := "";
      bigDesc := "";
      price := "";
      classification := "";
      available := true;
      sponsored := false;
      sizes := [];
      colors := [];
      newColor := "";
    }

    method ResetImages()
      modifies this`mainImage, this`mainImagePreview, this`extraImages, this`extraImagePreviews
      ensures mainImage == None && mainImagePreview == None
      ensures extraImages == [None, None, None] && extraImagePreviews == [None, None, None]
    {
      mainImage := None;
      mainImagePreview := None;
      extraImages := [None, None, None];
      extraImagePreviews := [None, None, None];
    }

    /** handleCreateProduct: the FormData handed to onSubmit, then the reset; the owner id survives it. */
    method HandleCreateProduct() returns (entries: seq<Entry>)
      modifies this`name, this`smallDesc, this`bigDesc, this`price, this`classification, this`available
      modifies this`sponsored, this`mainImage, this`mainImagePreview, this`extraImages, this`extraImagePreviews
      modifies this`sizes, this`colors, this`newColor
      ensures entries == Entries(old(Fields()))
      ensures IsReset() && SlotsValid() && ownerId == old(ownerId)
    {
      var fields := Fields();
      entries := TextEntries(fields);
      if mainImage.Some? {
        entries := entries + [Entry("mainImage", FileValue(mainImage.value))];
      }
      entries := AppendExtraImages(entries, extraImages);
      ResetForm();
    }

    /** handleOpenChange: closing the dialog resets the form. */
    method HandleOpenChange(isOpen: bool)
      modifies this`name, this`smallDesc, this`bigDesc, this`price, this`classification, this`available
      modifies this`sponsored, this`mainImage, this`mainImagePreview, this`extraImages, this`extraImagePreviews
      modifies this`sizes, this`colors, this`newColor
      ensures !isOpen ==> IsReset() && SlotsValid()
      ensures isOpen ==> unchanged(this)
      ensures ownerId == old(ownerId)
    {
      if !isOpen {
        ResetForm();
      }
    }

    method ToggleSize(size: string)
      modifies this`sizes
      ensures sizes == Toggled(old(sizes), size)
    {
      sizes := Toggled(sizes, size);
    }

    method AddColorFromInput()
      modifies this`colors, this`newColor
      ensures (colors, newColor) == AddColor(old(colors), old(newColor))
    {
      var t := Trim(newColor);
      if t != "" && t !in colors {
        colors := colors + [t];
        newColor := "";
      }
    }

    method RemoveColor(index: int)
      modifies this`colors
      ensures colors == RemoveAt(old(colors), index)
    {
      colors := RemoveAt(colors, index);
    }

    method RemoveMainImage()
      modifies this`mainImage, this`mainImagePreview
      ensures mainImage == None && mainImagePreview == None
    {
      mainImage := None;
      mainImagePreview := None;
    }

    /** removeExtraImage: slot `index` of both lists becomes empty; every other slot is kept. */
    method RemoveExtraImage(index: nat)
      requires SlotsValid() && index < SlotCount
      modifies this`extraImages, this`extraImagePreviews
      ensures SlotsValid()
      ensures extraImages[index] == None && extraImagePreviews[index] == None
      ensures forall k :: 0 <= k < SlotCount && k != index ==>
        extraImages[k] == old(extraImages[k]) && extraImagePreviews[k] == old(extraImagePreviews[k])
    {
      var newImages := extraImages;
      newImages := newImages[index := None];
      extraImages := newImages;
      var newPreviews := extraImagePreviews;
      newPreviews := newPreviews[index := None];
      extraImagePreviews := newPreviews;
    }
  }

  /** With only the first and the last slot filled, exactly those two files follow the eight text entries. */
  lemma {:induction false} OuterSlotsSent(f: CreateFields, a: File, c: File)
    requires f.mainImage.None? && f.extraImages == [Some(a), None, Some(c)]
    ensures |Entries(f)| == 10
    ensures Entries(f)[8..] == [Entry("extraImages", FileValue(a)), Entry("extraImages", FileValue(c))]
  {
    var ea, ec := Entry("extraImages", FileValue(a)), Entry("extraImages", FileValue(c));
    assert ExtraImageEntries([Some(c)]) == [ec] by {
      assert [Some(c)][1..] == [];
    }
    assert ExtraImageEntries([None, Some(c)]) == [ec] by {
      assert [None, Some(c)][1..] == [Some(c)];
    }
    assert ExtraImageEntries(f.extraImages) == [ea, ec] by {
      assert f.extraImages[1..] == [None, Some(c)];
    }
    assert MainImageEntry(f) == [];
  }

  /** Emptying the middle of three filled slots: only the other two files are sent. */
  method RemovedSlotNotSent(a: File, b: File, c: File) returns (entries: seq<Entry>)
    ensures |entries| == 10 && entries[8..] == [Entry("extraImages", FileValue(a)), Entry("extraImages", FileValue(c))]
  {
    var form := new CreateProductForm();
    form.extraImages := [Some(a), Some(b), Some(c)];
    form.RemoveExtraImage(1);
    var f := form.Fields();
    assert f.extraImages == [Some(a), None, Some(c)];
    OuterSlotsSent(f, a, c);
    entries := form.HandleCreateProduct();
  }
}
