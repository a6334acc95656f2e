/**
 * The business's profile page: the promotion files it uploads and deletes (with the
 * size rules for images and PDFs), the form filled from the stored business with a
 * default for every missing field, and the delivery fee read back as a number when the
 * form is saved.
 */
module BusinessProfile {
  import opened Common
  import opened Seqs
  import opened Texts
  import opened Domain

  /** A file picked in the file input: its name, MIME type and size in bytes. */
  datatype File = File(name: string, mimeType: string, size: nat)

  /** Images larger than this are compressed before they are uploaded. */
  const ImageLimit: nat := 200 * 1024

  /** PDF files larger than this are refused. */
  const PdfLimit: nat := 600 * 1024

  predicate IsImageFile(f: File) {
    "image/" <= f.mimeType
  }

  predicate IsPdfFile(f: File) {
    f.mimeType == "application/pdf"
  }

  /** What the upload does with a file before sending it. */
  datatype Plan = Compress | Reject | AsIs

  /** A large image is compressed, a large PDF refused, anything else sent as it is
      whatever its size. */
  function PlanFor(f: File): (p: Plan)
    ensures p == Compress <==> IsImageFile(f) && f.size > ImageLimit
    ensures p == Reject <==> IsPdfFile(f) && f.size > PdfLimit
    ensures p == AsIs ==> f.size <= PdfLimit || !IsPdfFile(f)
  {
    assert IsPdfFile(f) ==> f.mimeType[0] != "image/"[0];
    if IsImageFile(f) && f.size > ImageLimit then Compress
    else if IsPdfFile(f) && f.size > PdfLimit then Reject
    else AsIs
  }

  /** The promotions without those stored under `path`, the rest in their order. */
  function WithoutPath(ps: seq<Promotion>, path: string): (r: seq<Promotion>)
    ensures Subsequence(r, ps)
    ensures forall p :: p in r <==> p in ps && p.path != path
  {
    FilterIsSubsequence(ps, (p: Promotion) => p.path != path);
    Filter(ps, (p: Promotion) => p.path != path)
  }

  /** Deleting the file just uploaded, under a path no other promotion had, gives back
      the list from before the upload. */
  lemma DeleteUndoesUpload(ps: seq<Promotion>, p: Promotion)
    requires forall q :: q in ps ==> q.path != p.path
    ensures WithoutPath(ps + [p], p.path) == ps
  {
    FilterConcat(ps, [p], (q: Promotion) => q.path != p.path);
    FilterKeepsAll(ps, (q: Promotion) => q.path != p.path);
    assert [p][1..] == [];
  }

  /** Deleting the same path twice deletes nothing more. */
  lemma DeleteIdempotent(ps: seq<Promotion>, path: string)
    ensures WithoutPath(WithoutPath(ps, path), path) == WithoutPath(ps, path)
  {
    FilterKeepsAll(WithoutPath(ps, path), (p: Promotion) => p.path != path);
  }

  /** `PromotionManager`: the picked file, the uploading flag and the local list of
      promotions. */
  class PromotionManager {
    var selected: Option<File>
    var uploading: bool
    var promotions: seq<Promotion>

    constructor(stored: seq<Promotion>)
      ensures selected.None? && !uploading && promotions == stored
    {
      selected := None;
      uploading := false;
      promotions := stored;
    }

    /** The effect that copies the business's stored list whenever it changes. */
    method Sync(stored: seq<Promotion>)
      modifies this
      ensures promotions == stored && selected == old(selected) && uploading == old(uploading)
    {
      promotions := stored;
    }

    /** `handleFileChange`: the first picked file, if any, becomes the selection. */
    method HandleFileChange(files: seq<File>)
      modifies this
      ensures selected == if files != [] then Some(files[0]) else old(selected)
      ensures uploading == old(uploading) && promotions == old(promotions)
    {
      if files != [] {
        selected := Some(files[0]);
      }
    }

    /**
     * `handleUpload`, with the storage and business update answers as parameters and
     * `compress` standing for the image compression. `sent` is the file handed to
     * storage, if any. Without a selection nothing happens; a large PDF is refused and
     * the selection cleared; otherwise the file (compressed when it is a large image)
     * is uploaded, and only when both the upload and the business update succeed is
     * the new promotion appended and the selection cleared.
     */
    method HandleUpload(compress: File -> File, uploadOk: bool, url: string, path: string, updateOk: bool)
      returns (sent: Option<File>)
      modifies this
      ensures old(selected).None? ==>
        sent.None? && selected == old(selected) && uploading == old(uploading) && promotions == old(promotions)
      ensures old(selected).Some? ==> !uploading
      ensures old(selected).Some? && PlanFor(old(selected).value) == Reject ==>
        sent.None? && selected.None? && promotions == old(promotions)
      ensures old(selected).Some? && PlanFor(old(selected).value) != Reject ==>
        && sent == Some(if PlanFor(old(selected).value) == Compress then compress(old(selected).value) else old(selected).value)
        && (uploadOk && updateOk ==>
              promotions == old(promotions) + [Promotion(Some(sent.value.name), url, path)] && selected.None?)
        && (!(uploadOk && updateOk) ==> promotions == old(promotions) && selected == old(selected))
    {
      if selected.None? {
        return None;
      }
      uploading := true;
      var file := selected.value;
      var plan := PlanFor(file);
      if plan == Compress {
        file := compress(file);
      } else if plan == Reject {
        uploading := false;
        selected := None;
        return None;
      }
      sent := Some(file);
      if uploadOk {
        var updated := promotions + [Promotion(Some(file.name), url, path)];
        if updateOk {
          promotions := updated;
          selected := None;
        }
      }
      uploading := false;
    }

    /** `handleDelete(path)`: when storage removes the file, every promotion under that
        path leaves the local list (whatever the business update answers); on an error
        nothing changes. */
    method HandleDelete(path: string, deleteOk: bool)
      modifies this
      ensures promotions == if deleteOk then WithoutPath(old(promotions), path) else old(promotions)
      ensures selected == old(selected) && uploading == old(uploading)
    {
      if deleteOk {
        promotions := WithoutPath(promotions, path);
      }
    }
  }

  /** A `businesses` row as stored, every column possibly missing. */
  datatype BusinessRow = BusinessRow(
    name: Option<string>, category: Option<string>, phone: Option<string>, address: Option<string>,
    deliveryTime: Option<string>, image: Option<string>, deliveryFee: Option<real>,
    location: Option<LatLng>, isOpen: Option<bool>, rating: Option<real>,
    promotions: Option<seq<Promotion>>)

  /** The fee field: the stored number until the owner types in it. */
  datatype Fee = Stored(value: real) | Typed(text: string)

  /** The form state. */
  datatype Profile = Profile(
    name: string, category: string, phone: string, address: string, deliveryTime: string,
    image: string, deliveryFee: Fee, location: LatLng, isOpen: bool, rating: real,
    promotions: seq<Promotion>)

  /** `value || ''`. */
  function OrEmpty(s: Option<string>): (r: string)
    ensures Filled(s) ==> r == s.value
    ensures !Filled(s) ==> r == ""
  {
    if Filled(s) then s.value else ""
  }

  /** The form filled from the stored business: missing text is empty, a missing fee
      and rating are 0, a missing location is Mexico City's centre, a missing open flag
      is closed and missing promotions are none. */
  function ProfileOf(row: BusinessRow): (p: Profile)
    ensures p.name == OrEmpty(row.name) && p.category == OrEmpty(row.category)
    ensures p.phone == OrEmpty(row.phone) && p.address == OrEmpty(row.address)
    ensures p.deliveryTime == OrEmpty(row.deliveryTime) && p.image == OrEmpty(row.image)
    ensures p.deliveryFee == Stored(OrZero(row.deliveryFee))
    ensures p.location == if row.location.Some? then row.location.value else DefaultCoordinates
    ensures p.isOpen <==> row.isOpen == Some(true)
    ensures p.rating == OrZero(row.rating)
    ensures p.promotions == if row.promotions.Some? then row.promotions.value else []
  {
    Profile(OrEmpty(row.name), OrEmpty(row.category), OrEmpty(row.phone), OrEmpty(row.address),
            OrEmpty(row.deliveryTime), OrEmpty(row.image), Stored(OrZero(row.deliveryFee)),
            row.location.GetOr(DefaultCoordinates), row.isOpen == Some(true), OrZero(row.rating),
            row.promotions.GetOr([]))
  }

  /** `parseFloat(profile.delivery_fee) || 0`: a number typed that does not parse is 0. */
  function SavedFee(f: Fee): (v: real)
    ensures f.Stored? ==> v == f.value
    ensures f.Typed? ==> v == OrZero(ParseFloat(f.text))
  {
    match f
    case Stored(x) => x
    case Typed(t) => OrZero(ParseFloat(t))
  }

  /** A whole number typed in the fee field is saved as that number. */
  lemma TypedWholeFee(n: int)
    ensures SavedFee(Typed(IntToString(n))) == n as real
  {
    ParseFloatOfInt(n);
  }

  /** An emptied fee field saves 0. */
  lemma EmptyFeeIsZero()
    ensures SavedFee(Typed("")) == 0.0
  {
  }

  /** The row `handleSave` writes: every field of the form, with the fee as a number. */
  function Saved(p: Profile): (row: BusinessRow)
    ensures row.deliveryFee == Some(SavedFee(p.deliveryFee))
    ensures row.name == Some(p.name) && row.category == Some(p.category) && row.phone == Some(p.phone)
    ensures row.address == Some(p.address) && row.deliveryTime == Some(p.deliveryTime) && row.image == Some(p.image)
    ensures row.location == Some(p.location) && row.isOpen == Some(p.isOpen) && row.rating == Some(p.rating)
    ensures row.promotions == Some(p.promotions)
  {
    BusinessRow(Some(p.name), Some(p.category), Some(p.phone), Some(p.address), Some(p.deliveryTime),
                Some(p.image), Some(SavedFee(p.deliveryFee)), Some(p.location), Some(p.isOpen),
                Some(p.rating), Some(p.promotions))
  }

  /** Saving and loading again gives back the form, with the fee as the number it was
      saved as. */
  lemma SaveThenLoad(p: Profile)
    ensures ProfileOf(Saved(p)) == p.(deliveryFee := Stored(SavedFee(p.deliveryFee)))
  {
  }

  /** A form loaded and saved without edits loads back unchanged. */
  lemma LoadSaveLoad(row: BusinessRow)
    ensures ProfileOf(Saved(ProfileOf(row))) == ProfileOf(row)
  {
    SaveThenLoad(ProfileOf(row));
  }
}
