/** The admin image library: the gallery search, deleting and editing an
    image, and adding the image the uploader hands over. */
module AdminImages {
  import opened Wrappers
  import Text
  import Seqs
  import ImageUploader

  /** A library image; `uploadedAt` is in milliseconds since the epoch. */
  datatype Image = Image(
    id: string,
    url: string,
    name: string,
    category: string,
    uploadedAt: int,
    size: string)

  /** The gallery search: name or category, ignoring case. */
  predicate MatchesSearch(image: Image, query: string)
  {
    Text.IncludesIgnoreCase(image.name, query) || Text.IncludesIgnoreCase(image.category, query)
  }

  /** `filteredImages`: shown iff the search matches, in library order; an
      empty search shows the whole library. */
  function FilteredImages(images: seq<Image>, query: string): (r: seq<Image>)
    ensures forall x :: x in r <==> x in images && MatchesSearch(x, query)
    ensures Seqs.IsSubsequence(r, images)
    ensures query == "" ==> r == images
  {
    Text.EmptyNeedleMatches();
    Seqs.FilterIsSubsequence(images, (x: Image) => MatchesSearch(x, query));
    Seqs.Filter(images, (x: Image) => MatchesSearch(x, query))
  }

  /** `handleDeleteImage(id)`: every image with that id goes, the rest stay in order. */
  function WithoutImage(images: seq<Image>, id: string): (r: seq<Image>)
    ensures forall x :: x in r <==> x in images && x.id != id
    ensures Seqs.IsSubsequence(r, images)
    ensures |r| == |images| - Seqs.Count(images, (x: Image) => x.id == id)
  {
    Seqs.FilterOutLength(images, (x: Image) => x.id == id, (x: Image) => x.id != id);
    Seqs.FilterIsSubsequence(images, (x: Image) => x.id != id);
    Seqs.Filter(images, (x: Image) => x.id != id)
  }

  /** Deleting an id that is not in the library leaves it as it was. */
  lemma DeleteUnknownIsNoOp(images: seq<Image>, id: string)
    requires forall i :: 0 <= i < |images| ==> images[i].id != id
    ensures WithoutImage(images, id) == images
  {
  }

  /** `handleEditImage(id, {name, category})`: the images with that id take the
      new name and category; their id, url, upload time and size, and every
      other image, are kept. */
  function Edited(images: seq<Image>, id: string, name: string, category: string): (r: seq<Image>)
    ensures |r| == |images|
    ensures forall i :: 0 <= i < |images| && images[i].id == id ==>
              r[i] == images[i].(name := name, category := category)
    ensures forall i :: 0 <= i < |images| && images[i].id != id ==> r[i] == images[i]
  {
    Seqs.UpdateWhere(images, (x: Image) => x.id == id, (x: Image) => x.(name := name, category := category))
  }

  /** An edit keeps the library's ids in place, so a later delete or edit
      finds the same images. */
  lemma EditKeepsIds(images: seq<Image>, id: string, name: string, category: string)
    ensures var r := Edited(images, id, name, category);
            forall i :: 0 <= i < |images| ==> r[i].id == images[i].id && r[i].url == images[i].url
  {
  }

  /** Editing twice with the same values is editing once. */
  lemma EditIdempotent(images: seq<Image>, id: string, name: string, category: string)
    ensures Edited(Edited(images, id, name, category), id, name, category) == Edited(images, id, name, category)
  {
  }

  const PlaceholderUrl: string := "/placeholder.svg"

  /** The image `handleAddImage` builds at time `now`: its id is the time in
      decimal, a missing or empty url falls back to the placeholder and an
      empty size to "0KB". */
  function NewImage(upload: ImageUploader.Upload, now: nat): (image: Image)
    ensures image.id == Text.Decimal(now) && image.uploadedAt == now
    ensures image.name == upload.name && image.category == upload.category
    ensures upload.url.Some? && upload.url.value != "" ==> image.url == upload.url.value
    ensures upload.url.None? || upload.url.value == "" ==> image.url == PlaceholderUrl
    ensures image.size == if upload.size == "" then "0KB" else upload.size
  {
    var url := if upload.url.Some? && upload.url.value != "" then upload.url.value else PlaceholderUrl;
    Image(Text.Decimal(now), url, upload.name, upload.category, now,
          if upload.size == "" then "0KB" else upload.size)
  }

  /** An image added from the uploader always has a url and a size label. */
  lemma NewImageHasUrlAndSize(upload: ImageUploader.Upload, now: nat)
    ensures NewImage(upload, now).url != "" && NewImage(upload, now).size != ""
  {
  }

  /** The page state: the library and the search box. */
  class ImageLibrary {
    var images: seq<Image>
    var searchQuery: string

    constructor (initial: seq<Image>)
      ensures images == initial && searchQuery == ""
    {
      images := initial;
      searchQuery := "";
    }

    /** The gallery. */
    function Gallery(): seq<Image>
      reads this
    {
      FilteredImages(images, searchQuery)
    }

    method DeleteImage(id: string)
      modifies this
      ensures images == WithoutImage(old(images), id)
      ensures searchQuery == old(searchQuery)
    {
      images := WithoutImage(images, id);
    }

    method EditImage(id: string, name: string, category: string)
      modifies this
      ensures images == Edited(old(images), id, name, category)
      ensures searchQuery == old(searchQuery)
    {
      images := Edited(images, id, name, category);
    }

    /** The new image goes first; the library follows it unchanged. */
    method AddImage(upload: ImageUploader.Upload, now: nat)
      modifies this
      ensures images == [NewImage(upload, now)] + old(images)
      ensures searchQuery == old(searchQuery)
    {
      images := [NewImage(upload, now)] + images;
    }

    method SetSearchQuery(query: string)
      modifies this
      ensures searchQuery == query && images == old(images)
    {
      searchQuery := query;
    }
  }

  /** What the gallery shows after adding an upload: the new image first when it
      matches the search, then what was shown before. */
  lemma AddedImageShownFirst(images: seq<Image>, query: string, upload: ImageUploader.Upload, now: nat)
    ensures var image := NewImage(upload, now);
            FilteredImages([image] + images, query)
              == (if MatchesSearch(image, query) then [image] else []) + FilteredImages(images, query)
  {
    var image := NewImage(upload, now);
    assert ([image] + images)[1..] == images;
  }
}
