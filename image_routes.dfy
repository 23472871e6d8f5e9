/** The screening image endpoints (app/app/api/routes/images.py). The caller
    is the clinician that the `require_clinician` dependency admitted. The
    upload directory is a set of paths known to exist on disk. */
module ImageRoutes {
  import opened Common
  import opened Config
  import opened Users
  import opened Records
  import opened AuditModel
  import opened Store

  const ResourceType: string := "image"

  const AllowedExtensions: set<string> := {".jpg", ".jpeg", ".png", ".tiff", ".tif"}

  /** `settings.max_file_size_mb` in bytes. */
  const MaxFileSize: nat := MaxFileSizeMb * 1024 * 1024

  /** The index of the last `c` in `s`, or -1. */
  function LastIndexOf(s: string, c: char): (i: int)
    ensures -1 <= i < |s|
    ensures i >= 0 ==> s[i] == c
    ensures forall j :: i < j < |s| ==> s[j] != c
  {
    if s == [] then -1
    else if s[|s| - 1] == c then |s| - 1
    else LastIndexOf(s[..|s| - 1], c)
  }

  /** Some character strictly between `from` and `to` is not a dot. */
  predicate SomeNonDot(s: string, from: int, to: int)
    requires -1 <= from && to <= |s|
  {
    exists i :: from < i < to && s[i] != '.'
  }

  /** `os.path.splitext(name)[1]` on a POSIX path: from the last dot of the
      last path component to the end; nothing when that component has no dot
      or only leading dots. */
  function Extension(name: string): (ext: string)
    ensures ext == "" || (ext[0] == '.' && EndsWith(name, ext))
    ensures ext != "" ==> '/' !in ext && '.' !in ext[1..]
    ensures ext != "" <==> HasExtension(name)
  {
    var sep := LastIndexOf(name, '/');
    var dot := LastIndexOf(name, '.');
    if dot > sep && SomeNonDot(name, sep, dot) then
      var ext := name[dot..];
      assert ext[1..] == name[dot + 1..];
      assert forall j :: 0 <= j < |ext| ==> ext[j] == name[dot + j];
      var i :| sep < i < dot && name[i] != '.';
      assert InLastComponent(name, i);
      ext
    else
      ""
  }

  /** No `/` at or after position `i`. */
  predicate InLastComponent(name: string, i: int) {
    forall k :: i <= k < |name| && 0 <= k ==> name[k] != '/'
  }

  /** The last path component holds a dot with a character other than a dot
      somewhere before it. */
  predicate HasExtension(name: string) {
    exists i, j :: 0 <= i < j < |name| && name[i] != '.' && name[j] == '.' && InLastComponent(name, i)
  }

  /** The extension, in lower case, is on the allow-list. */
  predicate AllowedType(filename: string) {
    Lower(Extension(filename)) in AllowedExtensions
  }

  /** A file name as sent: its name and `content_type`, and the length of
      its contents. */
  datatype Upload = Upload(filename: string, contentType: Option<string>, size: nat)

  /** The row an accepted upload becomes: a fresh file name that keeps the
      lower-cased extension, stored under the upload directory. */
  function UploadedImage(id: Id, screeningId: Id, file: Upload, imageType: string, now: int): (image: ScreeningImage)
    ensures image.id == id && image.screeningId == screeningId && image.uploadedAt == now
    ensures image.filename == NatToString(id) + Lower(Extension(file.filename))
    ensures image.filePath == UploadPath(image.filename)
    ensures image.originalFilename == file.filename && image.fileSize == Some(file.size)
    ensures image.mimeType == file.contentType && image.imageType == Some(imageType) && image.heatmapPath == None
  {
    var name := NatToString(id) + Lower(Extension(file.filename));
    ScreeningImage(id, screeningId, name, file.filename, UploadPath(name), Some(file.size), file.contentType,
                   Some(imageType), None, now)
  }

  const TypeNotAllowed: string := "File type not allowed. Allowed: .jpg, .jpeg, .png, .tiff, .tif"

  function TooLarge(): string {
    "File too large. Max size: " + NatToString(MaxFileSizeMb) + "MB"
  }

  /** `upload_image`: 404 for an unknown screening, then 400 for an
      extension outside the allow-list (compared in lower case), then 400 for
      contents over the size limit; otherwise one image row and one
      `image.upload` entry. */
  method UploadImage(db: Db, user: User, screeningId: Id, file: Upload, imageType: string, now: int)
    returns (r: Response<ScreeningImage>)
    requires db.Valid()
    modifies db
    ensures db.Valid()
    ensures r.Ok? || r.NotFound? || r.BadRequest?
    ensures r.NotFound? <==> screeningId !in old(db.screenings)
    ensures r.NotFound? ==> r.detail == "Screening not found"
    ensures screeningId in old(db.screenings) && !AllowedType(file.filename) ==> r == BadRequest(TypeNotAllowed)
    ensures (screeningId in old(db.screenings) && AllowedType(file.filename) && file.size > MaxFileSize) ==>
              r == BadRequest(TooLarge())
    ensures r.Ok? <==> screeningId in old(db.screenings) && AllowedType(file.filename) && file.size <= MaxFileSize
    ensures !r.Ok? ==> db.State() == old(db.State())
    ensures r.Ok? ==>
              && r.value == UploadedImage(old(db.nextId), screeningId, file, imageType, now)
              && db.State() == old(db.State()).(
                   images := old(db.images)[r.value.id := r.value],
                   log := old(db.log) + [RouteEntry(old(db.nextId) + 1, now, user, "image.upload", ResourceType, r.value.id)],
                   nextId := old(db.nextId) + 2)
  {
    if screeningId !in db.screenings {
      return NotFound("Screening not found");
    }
    if !AllowedType(file.filename) {
      return BadRequest(TypeNotAllowed);
    }
    if file.size > MaxFileSize {
      return BadRequest(TooLarge());
    }
    var image := StoreImage(db, user, screeningId, file, imageType, now);
    return Ok(image);
  }

  /** The accepted upload: the image row, then its audit entry. */
  method StoreImage(db: Db, user: User, screeningId: Id, file: Upload, imageType: string, now: int)
    returns (image: ScreeningImage)
    requires db.Valid()
    modifies db
    ensures db.Valid()
    ensures image == UploadedImage(old(db.nextId), screeningId, file, imageType, now)
    ensures db.State() == old(db.State()).(
              images := old(db.images)[image.id := image],
              log := old(db.log) + [RouteEntry(old(db.nextId) + 1, now, user, "image.upload", ResourceType, image.id)],
              nextId := old(db.nextId) + 2)
  {
    var id := db.FreshId();
    image := UploadedImage(id, screeningId, file, imageType, now);
    db.PutImage(image);
    db.Log(RouteEntry(db.nextId, now, user, "image.upload", ResourceType, id));
  }

  /** The stored file name of an accepted upload has the very extension that
      was checked: `splitext` of it gives back the lower-cased extension. */
  lemma StoredNameKeepsExtension(id: Id, ext: string)
    requires ext in AllowedExtensions
    ensures Extension(NatToString(id) + ext) == ext
  {
    var digits := NatToString(id);
    var name := digits + ext;
    assert forall j :: 0 <= j < |name| ==> name[j] != '/';
    assert name[|digits|] == '.';
    assert forall j :: |digits| < j < |name| ==> name[j] != '.';
    assert LastIndexOf(name, '/') == -1;
    assert LastIndexOf(name, '.') == |digits|;
    assert name[0] != '.';
    assert name[|digits|..] == ext;
  }

  /** A name whose only dot leads it has no extension, so `.jpg` is refused. */
  lemma LeadingDotIsNoExtension()
    ensures Extension(".jpg") == ""
  {
    var name := ".jpg";
    assert forall j :: 0 <= j < |name| ==> name[j] != '/';
    assert name[0] == '.' && forall j :: 0 < j < |name| ==> name[j] != '.';
    assert LastIndexOf(name, '/') == -1;
    assert LastIndexOf(name, '.') == 0;
  }

  /** Only the last extension counts: `scan.tar.JPG` passes as `.jpg`. */
  lemma LastExtensionCounts()
    ensures Extension("scan.tar.JPG") == ".JPG"
    ensures Lower(Extension("scan.tar.JPG")) in AllowedExtensions
  {
    var name := "scan.tar.JPG";
    assert forall j :: 0 <= j < |name| ==> name[j] != '/';
    assert name[8] == '.' && forall j :: 8 < j < |name| ==> name[j] != '.';
    assert LastIndexOf(name, '/') == -1;
    assert LastIndexOf(name, '.') == 8;
    assert name[0] != '.';
    assert name[8..] == ".JPG";
    assert Lower(".JPG") == ".jpg";
  }

  /** `get_image_info`. */
  function GetImageInfo(s: DbState, id: Id): (r: Response<ScreeningImage>)
    ensures r.Ok? <==> id in s.images
    ensures r.Ok? ==> r.value == s.images[id]
    ensures !r.Ok? ==> r == NotFound("Image not found")
  {
    if id in s.images then Ok(s.images[id]) else NotFound("Image not found")
  }

  /** A file sent back: its path, the name offered to the client and its
      media type. */
  datatype FileResponse = FileResponse(path: string, filename: string, mediaType: Option<string>)

  /** `download_image`: 404 for an unknown image, 404 when its file is not
      on disk; otherwise the file under its original name. */
  function DownloadImage(s: DbState, id: Id, onDisk: set<string>): (r: Response<FileResponse>)
    ensures r.Ok? <==> id in s.images && s.images[id].filePath in onDisk
    ensures id !in s.images ==> r == NotFound("Image not found")
    ensures id in s.images && s.images[id].filePath !in onDisk ==> r == NotFound("Image file not found on disk")
    ensures r.Ok? ==> r.value == FileResponse(s.images[id].filePath, s.images[id].originalFilename, s.images[id].mimeType)
  {
    if id !in s.images then NotFound("Image not found")
    else if s.images[id].filePath !in onDisk then NotFound("Image file not found on disk")
    else Ok(FileResponse(s.images[id].filePath, s.images[id].originalFilename, s.images[id].mimeType))
  }

  /** `get_heatmap`: 404 for an unknown image, 404 while it has no heatmap
      path or the heatmap is not on disk; otherwise the PNG overlay. */
  function GetHeatmap(s: DbState, id: Id, onDisk: set<string>): (r: Response<FileResponse>)
    ensures r.Ok? <==> id in s.images && Given(s.images[id].heatmapPath) && s.images[id].heatmapPath.value in onDisk
    ensures id !in s.images ==> r == NotFound("Image not found")
    ensures id in s.images && !r.Ok? ==> r == NotFound("Heatmap not yet generated. Run AI analysis first.")
    ensures r.Ok? ==>
              r.value == FileResponse(s.images[id].heatmapPath.value, "heatmap_" + s.images[id].originalFilename, Some("image/png"))
  {
    if id !in s.images then NotFound("Image not found")
    else
      var image := s.images[id];
      if !Given(image.heatmapPath) || image.heatmapPath.value !in onDisk then
        NotFound("Heatmap not yet generated. Run AI analysis first.")
      else Ok(FileResponse(image.heatmapPath.value, "heatmap_" + image.originalFilename, Some("image/png")))
  }

  datatype ImageList = ImageList(total: nat, items: seq<ScreeningImage>)

  /** `list_screening_images`: every image of the screening (none for an
      unknown one), and their number. */
  function ListScreeningImages(s: DbState, screeningId: Id): (r: ImageList)
    requires ValidState(s)
    ensures r.total == |r.items|
    ensures r.total == |set k | k in s.images && s.images[k].screeningId == screeningId|
    ensures forall x :: x in r.items <==> x.id in s.images && s.images[x.id] == x && x.screeningId == screeningId
    ensures Increasing(r.items, ImageKey)
  {
    var p := (x: ScreeningImage) => x.screeningId == screeningId;
    FilterMembers(ImageRows(s), p);
    ImageRowsMatching(s, p);
    assert KeysBelow(s.images, s.nextId, p) == set k | k in s.images && s.images[k].screeningId == screeningId;
    var items := Filter(ImageRows(s), p);
    ImageList(|items|, items)
  }
}
