/** The farmer's product form: the validation rules, the record it builds on
    submit (keeping an edited product's id and creation time), and the image
    list with its append and remove-by-index. */
module AddProductForm {
  import opened Wrappers
  import opened Models

  /** The form's values; `price` and `quantity` are the numbers the inputs
      coerce to. */
  datatype ProductValues = ProductValues(
    name: string,
    description: string,
    price: real,
    quantity: real,
    unit: string,
    category: ProductCategory,
    isOrganic: bool,
    isFeatured: bool)

  /** `z.number().int()`: a number with no fractional part. */
  predicate IsWhole(x: real)
  {
    x.Floor as real == x
  }

  /** `formSchema`: name of at least 2 characters, description of at least 10,
      a strictly positive price, a whole non-negative quantity and a non-empty
      unit. The category is only cast, not checked. */
  predicate FormValid(v: ProductValues)
  {
    && |v.name| >= 2
    && |v.description| >= 10
    && v.price > 0.0
    && IsWhole(v.quantity) && v.quantity >= 0.0
    && |v.unit| >= 1
  }

  /** The category never decides validity, and a fractional or negative
      quantity or a price of zero always fails. */
  lemma ValidationRules(v: ProductValues, c: ProductCategory)
    ensures FormValid(v) == FormValid(v.(category := c))
    ensures v.price <= 0.0 ==> !FormValid(v)
    ensures !IsWhole(v.quantity) || v.quantity < 0.0 ==> !FormValid(v)
    ensures FormValid(v) ==> v.quantity.Floor >= 0
  {
  }

  /** The values shown when adding: empty text, zero price and quantity,
      unit "each", vegetables. They do not pass the rules until filled in. */
  const EmptyValues: ProductValues := ProductValues("", "", 0.0, 0.0, "each", Vegetables, false, false)

  /** The values shown when editing `p`. */
  function ValuesOf(p: Product): (v: ProductValues)
    ensures v.name == p.name && v.price == p.price && v.quantity == p.quantity as real
  {
    ProductValues(p.name, p.description, p.price, p.quantity as real, p.unit, p.category, p.isOrganic, p.isFeatured)
  }

  const FormFarmer: FarmerRef := FarmerRef("f1", "Green Valley Farm", "Riverside County, CA", 4.8)

  /** The product `handleFormSubmit` builds at time `now`. An edited product
      with a non-empty id keeps it (otherwise `randomId` is used) and always
      keeps its creation time; `updatedAt` is always `now`. */
  function BuildProduct(values: ProductValues, images: seq<string>, existing: Option<Product>,
                        randomId: string, now: int): (p: Product)
    requires FormValid(values)
    ensures existing.Some? && existing.value.id != "" ==> p.id == existing.value.id
    ensures existing.None? || existing.value.id == "" ==> p.id == randomId
    ensures existing.Some? ==> p.createdAt == existing.value.createdAt
    ensures existing.None? ==> p.createdAt == now
    ensures p.updatedAt == now
    ensures p.images == images && p.farmer == FormFarmer
    ensures p.name == values.name && p.price == values.price && p.quantity as real == values.quantity
    ensures p.category == values.category && p.unit == values.unit
    ensures p.description == values.description
    ensures p.isOrganic == values.isOrganic && p.isFeatured == values.isFeatured
  {
    Product(
      if existing.Some? && existing.value.id != "" then existing.value.id else randomId,
      values.name, values.description, values.price, values.quantity.Floor, values.unit,
      values.category, images, values.isOrganic, values.isFeatured, FormFarmer,
      if existing.Some? then existing.value.createdAt else now,
      now)
  }

  /** Saving an unchanged edit gives back the product with only its farmer and
      `updatedAt` possibly replaced. */
  lemma EditRoundTrip(p: Product, randomId: string, now: int)
    requires p.id != "" && FormValid(ValuesOf(p))
    ensures BuildProduct(ValuesOf(p), p.images, Some(p), randomId, now)
              == p.(farmer := FormFarmer, updatedAt := now)
  {
  }

  /** `images.filter((_, i) => i !== index)`: the image at `index` goes, if
      there is one; the others keep their order. */
  function WithoutIndex(images: seq<string>, index: int): (r: seq<string>)
    ensures 0 <= index < |images| ==> r == images[..index] + images[index + 1..]
    ensures !(0 <= index < |images|) ==> r == images
  {
    if images == [] then []
    else
      var rest := WithoutIndex(images[1..], index - 1);
      if index == 0 then
        assert images[index + 1..] == images[1..];
        rest
      else
        assert 0 < index < |images| ==> images[1..][..index - 1] == images[1..index];
        assert 0 < index < |images| ==> images[1..][index..] == images[index + 1..];
        [images[0]] + rest
  }

  /** The form's image list. */
  class ProductForm {
    var images: seq<string>
    const existing: Option<Product>

    constructor (product: Option<Product>)
      ensures existing == product
      ensures images == if product.Some? then product.value.images else []
    {
      existing := product;
      images := if product.Some? then product.value.images else [];
    }

    /** The file reader's result is appended at the end. */
    method AddImage(dataUrl: string)
      modifies this
      ensures images == old(images) + [dataUrl]
    {
      images := images + [dataUrl];
    }

    method RemoveImage(index: int)
      modifies this
      ensures images == WithoutIndex(old(images), index)
      ensures 0 <= index < |old(images)| ==> |images| == |old(images)| - 1
    {
      images := WithoutIndex(images, index);
    }

    /** The submit: the resolver blocks invalid values; valid ones become the
        product handed to the parent. */
    method Submit(values: ProductValues, randomId: string, now: int) returns (product: Option<Product>)
      ensures product.Some? <==> FormValid(values)
      ensures product.Some? ==> product.value == BuildProduct(values, images, existing, randomId, now)
    {
      if FormValid(values) {
        product := Some(BuildProduct(values, images, existing, randomId, now));
      } else {
        product := None;
      }
    }
  }

  /** Adding an image and then removing it by its index gives the list back. */
  lemma AddThenRemoveRestores(images: seq<string>, dataUrl: string)
    ensures WithoutIndex(images + [dataUrl], |images|) == images
  {
    assert (images + [dataUrl])[..|images|] == images;
  }
}
