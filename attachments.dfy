/** Images already stored with a post, files picked for upload and their preview
    URLs, and the multipart body the edit and write forms send. */
module Attachments {
  import opened Lists

  /** A browser `File` picked in a file input, as an opaque token. */
  datatype File = File(handle: nat)

  type Url = string

  /** An image the server already stores for a post. */
  datatype Image = Image(id: int, url: string)

  /** `files.map(file => URL.createObjectURL(file))`, with `objectUrl` standing
      for the browser call. */
  function PreviewUrls(files: seq<File>, objectUrl: File -> Url): (r: seq<Url>)
    ensures |r| == |files|
    ensures forall i :: 0 <= i < |files| ==> r[i] == objectUrl(files[i])
  {
    if files == [] then [] else [objectUrl(files[0])] + PreviewUrls(files[1..], objectUrl)
  }

  /** `prev.filter(img => img.id !== imageId)`. */
  function WithoutImage(images: seq<Image>, imageId: int): (r: seq<Image>)
    ensures forall i :: 0 <= i < |r| ==> r[i] in images && r[i].id != imageId
    ensures forall i :: 0 <= i < |images| && images[i].id != imageId ==> images[i] in r
  {
    Filter(images, (img: Image) => img.id != imageId)
  }

  /** Removing an image keeps the other images in their order, with every copy. */
  lemma WithoutImageKeepsOthers(images: seq<Image>, imageId: int, img: Image)
    ensures multiset(WithoutImage(images, imageId))[img] ==
            if img.id == imageId then 0 else multiset(images)[img]
  {
    FilterMultiplicity(images, (i: Image) => i.id != imageId, img);
  }

  /** Picking `selected` after the `files`/`urls` pairs already held appends one
      file and its own preview URL per pick, after the old pairs. */
  lemma SelectionAppendsPairs(files: seq<File>, urls: seq<Url>, selected: seq<File>, objectUrl: File -> Url)
    requires |files| == |urls|
    ensures |files + selected| == |urls + PreviewUrls(selected, objectUrl)| == |files| + |selected|
    ensures Zip(files + selected, urls + PreviewUrls(selected, objectUrl)) ==
            Zip(files, urls) + Zip(selected, PreviewUrls(selected, objectUrl))
  {
  }

  /** One part of a multipart `FormData` body: the JSON "data" blob or one "files" entry. */
  datatype Part<D> = DataPart(data: D) | FilePart(file: File)

  /** One "files" part per file, in order. */
  function FileParts<D>(files: seq<File>): (r: seq<Part<D>>)
    ensures |r| == |files|
    ensures forall i :: 0 <= i < |files| ==> r[i] == FilePart(files[i])
  {
    if files == [] then [] else [FilePart(files[0])] + FileParts(files[1..])
  }

  /** The body the forms send: the data part first, then one file part per
      file, in order, and no other data part. */
  function Multipart<D>(data: D, files: seq<File>): (r: seq<Part<D>>)
    ensures |r| == 1 + |files|
    ensures r[0] == DataPart(data)
    ensures forall i :: 0 <= i < |files| ==> r[i + 1] == FilePart(files[i])
    ensures forall i :: 1 <= i < |r| ==> r[i].FilePart?
  {
    [DataPart(data)] + FileParts(files)
  }

  /** `formData.append("data", …)` followed by `files.forEach(f => formData.append("files", f))`. */
  method BuildParts<D>(data: D, files: seq<File>) returns (parts: seq<Part<D>>)
    ensures parts == Multipart(data, files)
  {
    parts := [DataPart(data)];
    var i := 0;
    while i < |files|
      invariant 0 <= i <= |files|
      invariant parts == [DataPart(data)] + FileParts(files[..i])
    {
      assert files[..i + 1] == files[..i] + [files[i]];
      FilePartsConcat<D>(files[..i], [files[i]]);
      parts := parts + [FilePart(files[i])];
      i := i + 1;
    }
    assert files[..i] == files;
  }

  lemma FilePartsConcat<D>(a: seq<File>, b: seq<File>)
    ensures FileParts<D>(a + b) == FileParts<D>(a) + FileParts<D>(b)
  {
  }
}
