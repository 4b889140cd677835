/**
 * The landlord's listing form: its initial values, the amenity checkboxes,
 * the list of picked image files, the storage paths of uploaded images and
 * the submission that creates or updates the listing.
 */
module UploadListing {
  import opened Common
  import opened Text
  import opened Database
  import opened Services

  /** The choices the lease-duration control offers. */
  const LeaseOptions := ["4 months", "8 months", "12 months", "16 months"]

  /** The form's fields; the image list is added when the form is submitted. */
  datatype FormData = FormData(
    title: string,
    description: string,
    address: string,
    price: real,
    bedrooms: real,
    bathrooms: real,
    isOnCampus: bool,
    genderPreference: GenderPreference,
    rentalType: RentalType,
    amenities: seq<string>,
    availableFrom: string,
    leaseDuration: string)

  /** JavaScript's `x || d` on a number: zero is replaced by the default. */
  function NumberOr(x: real, d: real): real {
    if x == 0.0 then d else x
  }

  /** JavaScript's `s || d` on a string: the empty string is replaced by the default. */
  function TextOr(s: string, d: string): string {
    if s == "" then d else s
  }

  /**
   * `buildFormData(listing)`: the listing's values, with a zero bedroom or
   * bathroom count read as 1, an empty start date read as `today`, and a lease
   * duration outside the offered choices read as 12 months. Without a listing,
   * the defaults.
   */
  function BuildFormData(listing: Option<Listing>, today: string): (r: FormData)
    ensures r.leaseDuration in LeaseOptions
    ensures listing.None? ==>
              r == FormData("", "", "", 0.0, 1.0, 1.0, false, AnyGender, Apartment, [], today, "12 months")
    ensures listing.Some? ==>
              var d := listing.value.details;
              && r.title == d.title && r.description == d.description && r.address == d.address
              && r.price == d.price && r.isOnCampus == d.isOnCampus
              && r.genderPreference == d.genderPreference && r.rentalType == d.rentalType
              && r.amenities == d.amenities
              && (r.bedrooms == if d.bedrooms == 0.0 then 1.0 else d.bedrooms)
              && (r.bathrooms == if d.bathrooms == 0.0 then 1.0 else d.bathrooms)
              && (r.availableFrom == if d.availableFrom == "" then today else d.availableFrom)
              && (r.leaseDuration == if d.leaseDuration in LeaseOptions then d.leaseDuration else "12 months")
  {
    match listing
    case None =>
      FormData("", "", "", NumberOr(0.0, 0.0), NumberOr(0.0, 1.0), NumberOr(0.0, 1.0), false,
               AnyGender, Apartment, [], TextOr("", today), "12 months")
    case Some(l) =>
      var d := l.details;
      FormData(
        TextOr(d.title, ""), TextOr(d.description, ""), TextOr(d.address, ""),
        NumberOr(d.price, 0.0), NumberOr(d.bedrooms, 1.0), NumberOr(d.bathrooms, 1.0),
        d.isOnCampus, d.genderPreference, d.rentalType, d.amenities,
        TextOr(d.availableFrom, today),
        if d.leaseDuration in LeaseOptions then d.leaseDuration else "12 months")
  }

  /** What the form submits: its fields and the image list. */
  function Submitted(form: FormData, imageUrls: seq<string>): ListingDetails {
    ListingDetails(form.title, form.description, form.address, form.price, form.bedrooms, form.bathrooms,
                   form.isOnCampus, form.genderPreference, form.rentalType, imageUrls, form.amenities,
                   form.availableFrom, form.leaseDuration)
  }

  /**
   * Opening a listing and submitting the form unchanged with its own images
   * stores what was there, when its counts are not zero, its start date is
   * set and its lease duration is one of the choices.
   */
  lemma EditUnchangedKeepsDetails(l: Listing, today: string)
    requires l.details.bedrooms != 0.0 && l.details.bathrooms != 0.0
    requires l.details.availableFrom != "" && l.details.leaseDuration in LeaseOptions
    ensures Submitted(BuildFormData(Some(l), today), l.details.imageUrls) == l.details
  {
  }

  /** `handleAmenityToggle(amenity)` on the form: only the amenity list changes. */
  function ToggleAmenity(form: FormData, a: string): (r: FormData)
    ensures r == form.(amenities := r.amenities)
    ensures a in r.amenities <==> a !in form.amenities
    ensures forall b :: b != a ==> (b in r.amenities <==> b in form.amenities)
  {
    form.(amenities := Toggle(form.amenities, a))
  }

  /** A picked file, as far as the form looks at it. */
  datatype File = File(name: string, size: nat, lastModified: nat)

  /** A number's decimal digits. */
  function NatText(n: nat): (r: string)
  {
    var digit := ["0123456789"[n % 10]];
    if n < 10 then digit else NatText(n / 10) + digit
  }

  /** `${file.name}-${file.size}-${file.lastModified}`: the key the file list is de-duplicated by. */
  function FileKey(f: File): string {
    f.name + "-" + NatText(f.size) + "-" + NatText(f.lastModified)
  }

  /** The files' keys, in order. */
  function KeysOf(fs: seq<File>): (r: seq<string>)
    ensures |r| == |fs| && forall i :: 0 <= i < |fs| ==> r[i] == FileKey(fs[i])
  {
    if fs == [] then [] else KeysOf(fs[..|fs| - 1]) + [FileKey(fs[|fs| - 1])]
  }

  /** The position of the first occurrence of `k`. */
  function FirstIndex(xs: seq<string>, k: string): (r: nat)
    requires k in xs
    ensures r < |xs| && xs[r] == k
    ensures forall j :: 0 <= j < r ==> xs[j] != k
  {
    if xs[0] == k then 0 else 1 + FirstIndex(xs[1..], k)
  }

  /** The first occurrence is the only position with `k` and none before it. */
  lemma {:induction false} FirstIndexUnique(xs: seq<string>, k: string, i: nat)
    requires i < |xs| && xs[i] == k && forall j :: 0 <= j < i ==> xs[j] != k
    ensures FirstIndex(xs, k) == i
  {
  }

  /** The last file with key `k`. */
  function LastWith(fs: seq<File>, k: string): (r: File)
    requires k in KeysOf(fs)
    ensures r in fs && FileKey(r) == k
  {
    var init := fs[..|fs| - 1];
    if FileKey(fs[|fs| - 1]) == k then fs[|fs| - 1]
    else
      assert KeysOf(fs) == KeysOf(init) + [FileKey(fs[|fs| - 1])];
      LastWith(init, k)
  }

  /** A JavaScript `Map` from keys to files: keys in insertion order, and the file stored under each. */
  datatype FileMap = FileMap(keys: seq<string>, files: map<string, File>)

  ghost predicate WellFormed(m: FileMap) {
    && (forall i, j :: 0 <= i < j < |m.keys| ==> m.keys[i] != m.keys[j])
    && (forall k :: k in m.files <==> k in m.keys)
  }

  /** `map.set(key, file)`: an existing key keeps its place and takes the new file; a new key goes last. */
  function Set(m: FileMap, f: File): FileMap {
    var k := FileKey(f);
    if k in m.files then m.(files := m.files[k := f]) else FileMap(m.keys + [k], m.files[k := f])
  }

  /** `new Map(files.map((file) => [key(file), file]))`. */
  function Build(fs: seq<File>): FileMap {
    if fs == [] then FileMap([], map[]) else Set(Build(fs[..|fs| - 1]), fs[|fs| - 1])
  }

  /**
   * `m` is the map built from `fs`: its keys are exactly the keys of `fs`, in
   * order of first occurrence, and each key holds the last file with that key.
   */
  ghost predicate Represents(m: FileMap, fs: seq<File>) {
    var xs := KeysOf(fs);
    && WellFormed(m)
    && (forall k :: k in m.files <==> k in xs)
    && HoldsLast(m, fs)
    && InFirstOrder(m.keys, xs)
  }

  /** Each key holds the last file of `fs` with that key. */
  ghost predicate HoldsLast(m: FileMap, fs: seq<File>) {
    forall k :: k in m.files ==> k in KeysOf(fs) && m.files[k] == LastWith(fs, k)
  }

  /** `keys` lists keys of `xs` in the order of their first occurrence in `xs`. */
  ghost predicate InFirstOrder(keys: seq<string>, xs: seq<string>) {
    forall i, j :: 0 <= i < j < |keys| ==> FirstBefore(xs, keys[i], keys[j])
  }

  /** `a` and `b` both occur in `xs`, `a` first. */
  ghost predicate FirstBefore(xs: seq<string>, a: string, b: string) {
    a in xs && b in xs && FirstIndex(xs, a) < FirstIndex(xs, b)
  }

  /** Appending a key keeps the first occurrence of every key already present. */
  lemma FirstIndexSnoc(xs: seq<string>, y: string, k: string)
    requires k in xs
    ensures FirstIndex(xs + [y], k) == FirstIndex(xs, k)
  {
    FirstIndexUnique(xs + [y], k, FirstIndex(xs, k));
  }

  /** A key appended for the first time occurs first at the end. */
  lemma FirstIndexNew(xs: seq<string>, k: string)
    requires k !in xs
    ensures FirstIndex(xs + [k], k) == |xs|
  {
    FirstIndexUnique(xs + [k], k, |xs|);
  }

  /** Setting a file whose key is present keeps the keys where they are. */
  lemma SetExisting(m: FileMap, f: File)
    requires WellFormed(m) && FileKey(f) in m.files
    ensures WellFormed(Set(m, f)) && Set(m, f).keys == m.keys && Set(m, f).files.Keys == m.files.Keys
  {
  }

  /** Setting a file with a new key appends the key. */
  lemma SetNew(m: FileMap, f: File)
    requires WellFormed(m) && FileKey(f) !in m.files
    ensures WellFormed(Set(m, f)) && Set(m, f).keys == m.keys + [FileKey(f)]
    ensures Set(m, f).files.Keys == m.files.Keys + {FileKey(f)}
  {
    var k0, m' := FileKey(f), Set(m, f);
    forall i, j | 0 <= i < j < |m'.keys|
      ensures m'.keys[i] != m'.keys[j]
    {
      assert m'.keys[i] == m.keys[i];
      if j == |m.keys| {
        assert m.keys[i] in m.files;
      }
    }
    forall k ensures k in m'.files <==> k in m'.keys {
      assert k in m'.keys <==> k in m.keys || k == k0;
    }
  }

  /** Setting the next file keeps the keys distinct and makes them those of the longer list. */
  lemma SetDomain(m: FileMap, fs: seq<File>)
    requires fs != [] && WellFormed(m) && forall k :: k in m.files <==> k in KeysOf(fs[..|fs| - 1])
    ensures WellFormed(Set(m, fs[|fs| - 1]))
    ensures forall k :: k in Set(m, fs[|fs| - 1]).files <==> k in KeysOf(fs)
  {
    var f := fs[|fs| - 1];
    assert KeysOf(fs) == KeysOf(fs[..|fs| - 1]) + [FileKey(f)];
    if FileKey(f) in m.files {
      SetExisting(m, f);
    } else {
      SetNew(m, f);
    }
  }

  /** After setting the next file, each key holds the last file of the longer list with that key. */
  lemma SetLast(m: FileMap, fs: seq<File>)
    requires fs != [] && Represents(m, fs[..|fs| - 1])
    ensures HoldsLast(Set(m, fs[|fs| - 1]), fs)
  {
    var init, f := fs[..|fs| - 1], fs[|fs| - 1];
    var m' := Set(m, f);
    assert KeysOf(fs) == KeysOf(init) + [FileKey(f)];
    forall k | k in m'.files
      ensures k in KeysOf(fs) && m'.files[k] == LastWith(fs, k)
    {
      if k != FileKey(f) {
        assert k in m.files;
      }
    }
  }

  /** Appending a key to the list keeps the order of the keys already listed. */
  lemma OrderSnoc(keys: seq<string>, ys: seq<string>, y: string)
    requires InFirstOrder(keys, ys)
    ensures InFirstOrder(keys, ys + [y])
  {
    var xs := ys + [y];
    forall i, j | 0 <= i < j < |keys|
      ensures FirstBefore(xs, keys[i], keys[j])
    {
      var ki, kj := keys[i], keys[j];
      assert FirstBefore(ys, ki, kj);
      FirstIndexSnoc(ys, y, ki);
      FirstIndexSnoc(ys, y, kj);
    }
  }

  /** A key seen for the first time goes after all the keys listed so far. */
  lemma OrderAppendNew(keys: seq<string>, ys: seq<string>, k0: string)
    requires InFirstOrder(keys, ys) && k0 !in ys
    requires forall i :: 0 <= i < |keys| ==> keys[i] in ys
    ensures InFirstOrder(keys + [k0], ys + [k0])
  {
    OrderSnoc(keys, ys, k0);
    var keys', xs := keys + [k0], ys + [k0];
    FirstIndexNew(ys, k0);
    forall i, j | 0 <= i < j < |keys'|
      ensures FirstBefore(xs, keys'[i], keys'[j])
    {
      var ki, kj := keys'[i], keys'[j];
      assert ki == keys[i];
      if j < |keys| {
        assert kj == keys[j];
        assert FirstBefore(xs, keys[i], keys[j]);
      } else {
        FirstIndexSnoc(ys, k0, ki);
      }
    }
  }

  /** After setting the next file, the keys still come in order of first occurrence. */
  lemma SetOrder(m: FileMap, ys: seq<string>, f: File)
    requires WellFormed(m) && (forall k :: k in m.files <==> k in ys) && InFirstOrder(m.keys, ys)
    ensures InFirstOrder(Set(m, f).keys, ys + [FileKey(f)])
  {
    var k0 := FileKey(f);
    if k0 in m.files {
      SetExisting(m, f);
      OrderSnoc(m.keys, ys, k0);
    } else {
      SetNew(m, f);
      forall i | 0 <= i < |m.keys| ensures m.keys[i] in ys {
        assert m.keys[i] in m.files;
      }
      OrderAppendNew(m.keys, ys, k0);
    }
  }

  /** Setting the next file of the list keeps the map a faithful copy of the longer list. */
  lemma SetRepresents(m: FileMap, fs: seq<File>)
    requires fs != [] && Represents(m, fs[..|fs| - 1])
    ensures Represents(Set(m, fs[|fs| - 1]), fs)
  {
    SetDomain(m, fs);
    SetLast(m, fs);
    assert KeysOf(fs) == KeysOf(fs[..|fs| - 1]) + [FileKey(fs[|fs| - 1])];
    SetOrder(m, KeysOf(fs[..|fs| - 1]), fs[|fs| - 1]);
  }

  /** The map built from a file list represents it. */
  lemma {:induction false} BuildRepresents(fs: seq<File>)
    ensures Represents(Build(fs), fs)
  {
    if fs != [] {
      BuildRepresents(fs[..|fs| - 1]);
      SetRepresents(Build(fs[..|fs| - 1]), fs);
    }
  }

  /** `Array.from(map.values())`. */
  function Values(m: FileMap): (r: seq<File>)
    requires WellFormed(m)
    ensures |r| == |m.keys| && forall i :: 0 <= i < |r| ==> r[i] == m.files[m.keys[i]]
  {
    seq(|m.keys|, i requires 0 <= i < |m.keys| => m.files[m.keys[i]])
  }

  /** `Array.from(new Map(files.map((file) => [key(file), file])).values())`. */
  function Dedup(fs: seq<File>): seq<File> {
    BuildRepresents(fs);
    Values(Build(fs))
  }

  /** Every file's key is among the list's keys. */
  lemma KeysOfHas(fs: seq<File>, f: File)
    requires f in fs
    ensures FileKey(f) in KeysOf(fs)
  {
    var i :| 0 <= i < |fs| && fs[i] == f;
    assert KeysOf(fs)[i] == FileKey(f);
  }

  /**
   * The de-duplicated file list: one file per key, the keys in order of first
   * occurrence, every key of the input kept, and each file the last one
   * picked with its key.
   */
  lemma DedupSpec(fs: seq<File>)
    ensures var r := Dedup(fs);
      && (forall i, j :: 0 <= i < j < |r| ==> FileKey(r[i]) != FileKey(r[j]))
      && (forall f :: f in fs ==> exists g :: g in r && FileKey(g) == FileKey(f))
      && (forall i :: 0 <= i < |r| ==> FileKey(r[i]) in KeysOf(fs) && r[i] == LastWith(fs, FileKey(r[i])))
      && (forall i, j :: 0 <= i < j < |r| ==>
            FirstIndex(KeysOf(fs), FileKey(r[i])) < FirstIndex(KeysOf(fs), FileKey(r[j])))
  {
    BuildRepresents(fs);
    var m := Build(fs);
    var r := Dedup(fs);
    assert r == Values(m);
    forall i | 0 <= i < |r|
      ensures FileKey(r[i]) == m.keys[i]
    {
      assert m.keys[i] in m.files;
    }
    forall f | f in fs
      ensures exists g :: g in r && FileKey(g) == FileKey(f)
    {
      KeysOfHas(fs, f);
      var i :| 0 <= i < |m.keys| && m.keys[i] == FileKey(f);
      assert r[i] in r;
    }
  }

  /** Picking files: nothing happens for an empty selection, else the combined list is de-duplicated. */
  function AddFiles(prev: seq<File>, selected: seq<File>): (r: seq<File>)
    ensures selected == [] ==> r == prev
    ensures selected != [] ==> r == Dedup(prev + selected)
  {
    if selected == [] then prev else Dedup(prev + selected)
  }

  /** Removing a preview: exactly that file goes, the others stay in order. */
  function RemoveFile(fs: seq<File>, file: File): (r: seq<File>)
    ensures file !in r
    ensures forall g :: g in r <==> g in fs && g != file
    ensures IsSubsequence(r, fs)
  {
    FilterIsSubsequence(g => g != file, fs);
    Filter(g => g != file, fs)
  }

  /** `file.name.split('.').pop() || 'jpg'`: the text after the last dot, or `jpg` when that is empty. */
  function Extension(name: string): (r: string)
    ensures '.' !in r && r != []
  {
    var last := AfterLast(name, '.');
    if last == [] then "jpg" else last
  }

  /** A name with a dot and something after it: the extension is what follows the last dot. */
  lemma ExtensionAfterDot(stem: string, ext: string)
    requires ext != [] && '.' !in ext
    ensures Extension(stem + "." + ext) == ext
  {
    AfterLastOfJoin(stem, '.', ext);
  }

  /** A name ending in a dot gets `jpg`. */
  lemma ExtensionTrailingDot(stem: string)
    ensures Extension(stem + ".") == "jpg"
  {
    AfterLastOfJoin(stem, '.', []);
    assert stem + "." == stem + ['.'] + [];
  }

  /** A non-empty name without a dot is its own extension, since splitting it yields only itself. */
  lemma ExtensionWithoutDot(name: string)
    requires name != [] && '.' !in name
    ensures Extension(name) == name
  {
    AfterLastWhole(name, '.');
  }

  /** Where an image goes in the storage bucket: a fresh id, the clock reading and the file's name. */
  datatype ImagePath = ImagePath(uploadId: string, time: nat, fileName: string)

  /** `listing-images/${uploadId}-${time}.${ext}`: the object name the bucket stores the image under. */
  function PathText(p: ImagePath): string {
    "listing-images/" + p.uploadId + "-" + NatText(p.time) + "." + Extension(p.fileName)
  }

  /** The object name lies in the image folder and its extension reads back as the file's. */
  lemma PathTextShape(p: ImagePath)
    ensures var t := PathText(p);
      t[..15] == "listing-images/" && AfterLast(t, '.') == Extension(p.fileName)
  {
    var stem := "listing-images/" + p.uploadId + "-" + NatText(p.time);
    assert PathText(p) == stem + ['.'] + Extension(p.fileName);
    AfterLastOfJoin(stem, '.', Extension(p.fileName));
  }

  /** The error an upload to the storage bucket reports. */
  const UploadFailed := "Upload failed"

  /** The path the `i`-th file is uploaded to. */
  function PathAt(files: seq<File>, ids: seq<string>, times: seq<nat>, i: nat): ImagePath
    requires |ids| == |files| && |times| == |files| && i < |files|
  {
    ImagePath(ids[i], times[i], files[i].name)
  }

  /** The public URL of every file's upload path, in the order the files were picked. */
  function UploadedUrls(files: seq<File>, ids: seq<string>, times: seq<nat>, publicUrl: ImagePath -> string): seq<string>
    requires |ids| == |files| && |times| == |files|
  {
    seq(|files|, i requires 0 <= i < |files| => publicUrl(PathAt(files, ids, times, i)))
  }

  /**
   * `uploadListingImages`: uploads the files one at a time under fresh
   * paths. The first upload that fails aborts the rest; otherwise the public
   * URLs come back in file order. `ids[i]` and `times[i]` are the fresh id and
   * the clock reading taken for the `i`-th file.
   */
  method UploadImages(files: seq<File>, ids: seq<string>, times: seq<nat>,
                      uploadOk: ImagePath -> bool, publicUrl: ImagePath -> string)
    returns (r: Result<seq<string>>, attempted: nat)
    requires |ids| == |files| && |times| == |files|
    ensures attempted <= |files|
    ensures forall i :: 0 <= i < attempted - 1 ==> uploadOk(PathAt(files, ids, times, i))
    ensures r.Ok? <==> forall i :: 0 <= i < |files| ==> uploadOk(PathAt(files, ids, times, i))
    ensures r.Ok? ==>
              && attempted == |files| && |r.value| == |files|
              && forall i :: 0 <= i < |files| ==> r.value[i] == publicUrl(PathAt(files, ids, times, i))
    ensures r.Err? ==>
              && r.error == UploadFailed && attempted > 0
              && !uploadOk(PathAt(files, ids, times, attempted - 1))
  {
    if |files| == 0 {
      return Ok([]), 0;
    }
    var urls: seq<string> := [];
    var i := 0;
    while i < |files|
      invariant 0 <= i <= |files| && |urls| == i
      invariant forall k :: 0 <= k < i ==> uploadOk(PathAt(files, ids, times, k))
      invariant forall k :: 0 <= k < i ==> urls[k] == publicUrl(PathAt(files, ids, times, k))
    {
      var path := PathAt(files, ids, times, i);
      if !uploadOk(path) {
        return Err(UploadFailed), i + 1;
      }
      var url := publicUrl(path);
      assert forall k :: 0 <= k < i ==> (urls + [url])[k] == urls[k];
      urls := urls + [url];
      i := i + 1;
    }
    r, attempted := Ok(urls), i;
  }

  /** The form's state while it is open. */
  class UploadModal {
    var formData: FormData
    var imageFiles: seq<File>
    var loading: bool
    const existing: Option<Listing>

    /** Opening the form, on an existing listing or on none. */
    constructor (existing: Option<Listing>, today: string)
      ensures this.existing == existing
      ensures formData == BuildFormData(existing, today) && imageFiles == [] && !loading
    {
      this.existing := existing;
      formData := BuildFormData(existing, today);
      imageFiles := [];
      loading := false;
    }

    method HandleAmenityToggle(a: string)
      modifies this
      ensures formData == ToggleAmenity(old(formData), a)
      ensures imageFiles == old(imageFiles) && loading == old(loading)
    {
      formData := ToggleAmenity(formData, a);
    }

    method PickFiles(selected: seq<File>)
      modifies this
      ensures imageFiles == AddFiles(old(imageFiles), selected)
      ensures formData == old(formData) && loading == old(loading)
    {
      if |selected| == 0 {
        return;
      }
      imageFiles := Dedup(imageFiles + selected);
    }

    method RemovePreview(file: File)
      modifies this
      ensures imageFiles == RemoveFile(old(imageFiles), file)
      ensures formData == old(formData) && loading == old(loading)
    {
      imageFiles := RemoveFile(imageFiles, file);
    }

    /**
     * The saving half of `handleSubmit`: an update of the listing the form was
     * opened on, which must still exist, otherwise a new listing for the
     * signed-in landlord.
     */
    method Save(backend: Backend, details: ListingDetails, verified: bool, newId: string, now: int)
      returns (saved: Result<Listing>)
      requires backend.Valid()
      requires forall i :: 0 <= i < |backend.listings| ==> backend.listings[i].id != newId
      modifies backend
      ensures backend.Valid()
      ensures backend.currentUser == old(backend.currentUser) && backend.profiles == old(backend.profiles)
      ensures backend.groups == old(backend.groups) && backend.applications == old(backend.applications)
      ensures saved.Err? ==> backend.listings == old(backend.listings)
      ensures saved.Ok? ==> saved.value.details == details
      ensures existing.Some? ==>
                (saved.Ok? <==> exists i :: 0 <= i < |old(backend.listings)| && old(backend.listings)[i].id == existing.value.id)
      ensures existing.None? ==> (saved.Ok? <==> backend.currentUser.Some?)
      ensures saved.Ok? && existing.Some? ==>
                && saved.value.id == existing.value.id && saved.value in backend.listings
                && exists i :: 0 <= i < |old(backend.listings)| && old(backend.listings)[i].id == existing.value.id &&
                     saved.value == old(backend.listings)[i].(details := details) &&
                     backend.listings == old(backend.listings)[i := saved.value]
      ensures saved.Ok? && existing.None? ==>
                && backend.currentUser.Some? && saved.value.id == newId
                && saved.value.landlordId == backend.currentUser.value
                && backend.listings == old(backend.listings) + [saved.value]
    {
      if existing.Some? {
        saved := backend.UpdateListing(existing.value.id, details);
        if saved.Ok? {
          ghost var i :| 0 <= i < |backend.listings| && backend.listings == old(backend.listings)[i := saved.value];
          assert backend.listings[i] == saved.value;
        }
      } else {
        saved := backend.CreateListing(details, verified, newId, now);
      }
    }

    /**
     * `handleSubmit`: uploads the picked files, then saves the form with the
     * listing's existing image URLs followed by the new ones — an update of
     * that listing when the form was opened on one, otherwise a new listing.
     * A failed upload saves nothing. `verified` is the flag a new row gets,
     * which the form does not send.
     */
    method HandleSubmit(backend: Backend, ids: seq<string>, times: seq<nat>,
                        uploadOk: ImagePath -> bool, publicUrl: ImagePath -> string,
                        verified: bool, newId: string, now: int)
      returns (saved: Result<Listing>)
      requires backend.Valid()
      requires |ids| == |imageFiles| && |times| == |imageFiles|
      requires forall i :: 0 <= i < |backend.listings| ==> backend.listings[i].id != newId
      modifies this, backend
      ensures backend.Valid() && !loading
      ensures formData == old(formData) && imageFiles == old(imageFiles)
      ensures backend.currentUser == old(backend.currentUser) && backend.profiles == old(backend.profiles)
      ensures backend.groups == old(backend.groups) && backend.applications == old(backend.applications)
      ensures saved.Err? ==> backend.listings == old(backend.listings)
      ensures saved.Ok? ==>
                && |saved.value.details.imageUrls| >= |imageFiles|
                && saved.value.details.imageUrls[..|saved.value.details.imageUrls| - |imageFiles|] ==
                   (if existing.Some? then existing.value.details.imageUrls else [])
                && Submitted(formData, saved.value.details.imageUrls) == saved.value.details
      ensures saved.Ok? ==>
                saved.value.details ==
                Submitted(formData, (if existing.Some? then existing.value.details.imageUrls else []) +
                                    UploadedUrls(imageFiles, ids, times, publicUrl))
      ensures (exists i :: 0 <= i < |imageFiles| && !uploadOk(PathAt(imageFiles, ids, times, i))) ==>
                saved == Err(UploadFailed)
      ensures (forall i :: 0 <= i < |imageFiles| ==> uploadOk(PathAt(imageFiles, ids, times, i))) && existing.Some? ==>
                (saved.Ok? <==> exists i :: 0 <= i < |old(backend.listings)| && old(backend.listings)[i].id == existing.value.id)
      ensures (forall i :: 0 <= i < |imageFiles| ==> uploadOk(PathAt(imageFiles, ids, times, i))) && existing.None? ==>
                (saved.Ok? <==> backend.currentUser.Some?)
      ensures saved.Ok? && existing.Some? ==>
                && saved.value.id == existing.value.id && saved.value in backend.listings
                && exists i :: 0 <= i < |old(backend.listings)| && old(backend.listings)[i].id == existing.value.id &&
                     saved.value == old(backend.listings)[i].(details := saved.value.details) &&
                     backend.listings == old(backend.listings)[i := saved.value]
      ensures saved.Ok? && existing.None? ==>
                && backend.currentUser.Some? && saved.value.id == newId
                && saved.value.landlordId == backend.currentUser.value
                && backend.listings == old(backend.listings) + [saved.value]
    {
      loading := true;
      var uploaded, _ := UploadImages(imageFiles, ids, times, uploadOk, publicUrl);
      if uploaded.Err? {
        loading := false;
        return Err(uploaded.error);
      }
      var previous := if existing.Some? then existing.value.details.imageUrls else [];
      assert uploaded.value == UploadedUrls(imageFiles, ids, times, publicUrl);
      var urls := previous + uploaded.value;
      assert urls[..|urls| - |imageFiles|] == previous;
      var details := Submitted(formData, urls);
      saved := Save(backend, details, verified, newId, now);
      loading := false;
    }
  }
}
