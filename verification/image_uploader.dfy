/** The admin image uploader: the checks on a chosen file, the default image
    name taken from the file name, the size label, and the submit sequence
    that reports the first missing field or hands the upload to its parent. */
module ImageUploader {
  import opened Wrappers
  import Text

  /** The parts of a browser `File` the uploader reads. */
  datatype File = File(name: string, mimeType: string, size: nat)

  /** What `onUpload` receives. */
  datatype Upload = Upload(file: File, name: string, category: string, url: Option<string>, size: string)

  const MaxFileBytes: nat := 5 * 1024 * 1024

  const NotAnImage: string := "Please select an image file (PNG, JPG, JPEG, GIF)"
  const TooLarge: string := "File size should be less than 5MB"
  const NoFile: string := "Please select an image to upload"
  const NoName: string := "Please provide a name for the image"
  const NoCategory: string := "Please select a category for the image"

  /** `file.type.match('image.*')`: the pattern matches wherever "image" occurs. */
  predicate IsImageType(mimeType: string)
  {
    Text.Contains(mimeType, "image")
  }

  /** A file the uploader keeps: an image type of at most 5 MiB. */
  predicate Acceptable(f: File)
  {
    IsImageType(f.mimeType) && f.size <= MaxFileBytes
  }

  /** `name.split('.').slice(0, -1).join('.')`: the file name up to its last
      dot, or "" when it has none. */
  function FileStem(name: string): (stem: string)
    ensures |stem| <= |name| && stem == name[..|stem|]
    ensures '.' !in name ==> stem == ""
    ensures '.' in name ==> |stem| < |name| && name[|stem|] == '.' && '.' !in name[|stem| + 1..]
  {
    if name == [] then ""
    else
      var init := name[..|name| - 1];
      var last := name[|name| - 1];
      assert name == init + [last];
      if last == '.' then
        assert name[|init| + 1..] == [];
        init
      else
        var stem := FileStem(init);
        assert name[..|stem|] == init[..|stem|];
        if '.' in init then
          assert name[|stem|] == init[|stem|];
          assert name[|stem| + 1..] == init[|stem| + 1..] + [last];
          stem
        else
          assert '.' !in name;
          stem
  }

  /** Naming a file `stem.ext`, with no dot in `ext`, gives back `stem`. */
  lemma FileStemOfExtension(stem: string, ext: string)
    requires '.' !in ext
    ensures FileStem(stem + "." + ext) == stem
  {
    var name := stem + "." + ext;
    assert name[|stem|] == '.';
    assert name[|stem| + 1..] == ext;
    var r := FileStem(name);
    assert forall k :: |r| + 1 <= k < |name| ==> name[k] != '.' by {
      forall k | |r| + 1 <= k < |name| ensures name[k] != '.' {
        assert name[k] == name[|r| + 1..][k - |r| - 1];
      }
    }
    assert forall k :: |stem| + 1 <= k < |name| ==> name[k] != '.' by {
      forall k | |stem| + 1 <= k < |name| ensures name[k] != '.' {
        assert name[k] == ext[k - |stem| - 1];
      }
    }
    assert |r| == |stem|;
  }

  /** The size label's unit and the number it shows, in tenths. */
  datatype SizeLabel = InBytes(bytes: nat) | InKB(tenths: nat) | InMB(tenths: nat)

  /** `formatFileSize`: bytes below 1024, KB below 1048576, MB otherwise; the
      figure is rounded half-up to one decimal as `toFixed(1)` does, so it is
      within half a tenth of the exact quotient. */
  function FormatFileSize(bytes: nat): (sl: SizeLabel)
    ensures sl.InBytes? <==> bytes < 1024
    ensures sl.InKB? <==> 1024 <= bytes < 1048576
    ensures sl.InMB? <==> bytes >= 1048576
    ensures sl.InBytes? ==> sl.bytes == bytes
    ensures sl.InKB? ==> -1024 < 2048 * sl.tenths - 20 * bytes <= 1024
    ensures sl.InMB? ==> -1048576 < 2097152 * sl.tenths - 20 * bytes <= 1048576
  {
    if bytes < 1024 then InBytes(bytes)
    else if bytes < 1048576 then
      var t := (20 * bytes + 1024) / 2048;
      assert 2048 * t <= 20 * bytes + 1024 < 2048 * t + 2048;
      InKB(t)
    else
      var t := (20 * bytes + 1048576) / 2097152;
      assert 2097152 * t <= 20 * bytes + 1048576 < 2097152 * t + 2097152;
      InMB(t)
  }

  /** The label as text: `"<n> B"`, `"<x.y> KB"` or `"<x.y> MB"`. */
  function SizeText(sl: SizeLabel): string
  {
    match sl
    case InBytes(n) => Text.Decimal(n) + " B"
    case InKB(t) => Text.Decimal(t / 10) + "." + Text.Decimal(t % 10) + " KB"
    case InMB(t) => Text.Decimal(t / 10) + "." + Text.Decimal(t % 10) + " MB"
  }

  /** Every file the uploader keeps is labelled at most "5.0 MB". */
  lemma AcceptedSizeAtMostFiveMB(f: File)
    requires Acceptable(f)
    ensures var sl := FormatFileSize(f.size); sl.InMB? ==> sl.tenths <= 50
  {
  }

  /** The uploader's state. */
  class Uploader {
    var selectedFile: Option<File>
    var previewUrl: Option<string>
    var name: string
    var category: string
    var error: string

    /** A file is selected exactly when a preview exists, and only acceptable
        files are ever selected. */
    predicate Valid()
      reads this
    {
      (selectedFile.Some? <==> previewUrl.Some?)
      && (selectedFile.Some? ==> Acceptable(selectedFile.value))
    }

    constructor ()
      ensures selectedFile == None && previewUrl == None
      ensures name == "" && category == "" && error == ""
      ensures Valid()
    {
      selectedFile := None;
      previewUrl := None;
      name := "";
      category := "";
      error := "";
    }

    /** `handleFile(file)`, with `objectUrl` the preview URL the browser makes.
        A non-image or a file over 5 MiB only sets the error; an accepted file
        clears it, becomes the selection and names the image after its stem. */
    method HandleFile(file: File, objectUrl: string)
      requires Valid()
      modifies this
      ensures Valid()
      ensures !IsImageType(file.mimeType) ==>
                error == NotAnImage && selectedFile == old(selectedFile) && previewUrl == old(previewUrl)
                && name == old(name)
      ensures IsImageType(file.mimeType) && file.size > MaxFileBytes ==>
                error == TooLarge && selectedFile == old(selectedFile) && previewUrl == old(previewUrl)
                && name == old(name)
      ensures Acceptable(file) ==>
                error == "" && selectedFile == Some(file) && previewUrl == Some(objectUrl)
                && name == FileStem(file.name)
      ensures category == old(category)
    {
      if !IsImageType(file.mimeType) {
        error := NotAnImage;
        return;
      }
      if file.size > MaxFileBytes {
        error := TooLarge;
        return;
      }
      error := "";
      selectedFile := Some(file);
      previewUrl := Some(objectUrl);
      name := FileStem(file.name);
    }

    /** `clearSelection()`: the file, the preview and the name go; the category
        and the error stay. */
    method ClearSelection()
      modifies this
      ensures selectedFile == None && previewUrl == None && name == ""
      ensures category == old(category) && error == old(error)
      ensures Valid()
    {
      selectedFile := None;
      previewUrl := None;
      name := "";
    }

    method SetName(text: string)
      modifies this
      ensures name == text
      ensures selectedFile == old(selectedFile) && previewUrl == old(previewUrl)
      ensures category == old(category) && error == old(error)
    {
      name := text;
    }

    method SetCategory(value: string)
      modifies this
      ensures category == value
      ensures selectedFile == old(selectedFile) && previewUrl == old(previewUrl)
      ensures name == old(name) && error == old(error)
    {
      category := value;
    }

    /** `handleSubmit`: the file, then the name, then the category are checked,
        and only the first missing one is reported, with nothing uploaded. When
        all are present the upload is handed over once and the file, preview,
        name and category are cleared; the error is left as it was. */
    method HandleSubmit() returns (sent: Option<Upload>)
      requires Valid()
      modifies this
      ensures Valid()
      ensures old(selectedFile).None? ==> sent == None && error == NoFile
      ensures old(selectedFile).Some? && old(name) == "" ==> sent == None && error == NoName
      ensures old(selectedFile).Some? && old(name) != "" && old(category) == "" ==>
                sent == None && error == NoCategory
      ensures sent == None ==>
                selectedFile == old(selectedFile) && previewUrl == old(previewUrl)
                && name == old(name) && category == old(category)
      ensures sent.Some? <==> old(selectedFile).Some? && old(name) != "" && old(category) != ""
      ensures sent.Some? ==>
                sent.value == Upload(old(selectedFile).value, old(name), old(category), old(previewUrl),
                                     SizeText(FormatFileSize(old(selectedFile).value.size)))
                && selectedFile == None && previewUrl == None && name == "" && category == ""
                && error == old(error)
    {
      if selectedFile.None? {
        error := NoFile;
        return None;
      }
      if name == "" {
        error := NoName;
        return None;
      }
      if category == "" {
        error := NoCategory;
        return None;
      }
      var file := selectedFile.value;
      sent := Some(Upload(file, name, category, previewUrl, SizeText(FormatFileSize(file.size))));
      ClearSelection();
      category := "";
    }
  }
}
