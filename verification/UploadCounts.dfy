/** How many files, photos and videos one upload may hold. */
module UploadCounts {
  import opened Wrappers
  import opened Settings

  datatype MediaKind = Photo | Video | Unrecognised

  datatype CountError = TooManyFiles | MixedMediaTypes | TooFewPhotos | TooManyPhotos | TooManyVideos

  function Count(kinds: seq<MediaKind>, kind: MediaKind): (n: nat)
    ensures n <= |kinds|
    ensures n > 0 <==> kind in kinds
  {
    if kinds == [] then 0 else (if kinds[0] == kind then 1 else 0) + Count(kinds[1..], kind)
  }

  /** `validate_file_count`: counts parts of any type. */
  function ValidateFileCount(s: Settings, parts: nat): Option<CountError> {
    if parts > s.maxUploadFiles then Some(TooManyFiles) else None
  }

  /** `validate_upload_counts`, on what libmagic made of each part. */
  function ValidateUploadCounts(s: Settings, kinds: seq<MediaKind>): Option<CountError> {
    var photos, videos := Count(kinds, Photo), Count(kinds, Video);
    if photos > 0 && videos > 0 then Some(MixedMediaTypes)
    else if 0 < photos < s.minUploadPhotos then Some(TooFewPhotos)
    else if photos > s.maxUploadPhotos then Some(TooManyPhotos)
    else if videos > s.maxUploadVideos then Some(TooManyVideos)
    else None
  }

  lemma {:induction false} CountsPartition(kinds: seq<MediaKind>)
    ensures Count(kinds, Photo) + Count(kinds, Video) + Count(kinds, Unrecognised) == |kinds|
  {
    if kinds != [] { CountsPartition(kinds[1..]); }
  }

  function Photos(n: nat): (kinds: seq<MediaKind>)
    ensures |kinds| == n && Count(kinds, Photo) == n && Count(kinds, Video) == 0
  {
    if n == 0 then [] else [Photo] + Photos(n - 1)
  }

  lemma {:induction false} CountIsMultiplicity(kinds: seq<MediaKind>, kind: MediaKind)
    ensures Count(kinds, kind) == multiset(kinds)[kind]
  {
    if kinds != [] {
      CountIsMultiplicity(kinds[1..], kind);
      assert kinds == [kinds[0]] + kinds[1..];
    }
  }

  /**
    An upload is accepted with photos alone or videos alone, in their bounds, and whatever else the file
    count lets in; a refusal names the first bound it breaks.
   */
  lemma CountsAreJudged(s: Settings, kinds: seq<MediaKind>)
    requires FieldsInRange(s)
    ensures var photos, videos := multiset(kinds)[Photo], multiset(kinds)[Video];
      var verdict := ValidateUploadCounts(s, kinds);
      && (verdict == None <==>
            || (videos == 0 && photos == 0)
            || (videos == 0 && s.minUploadPhotos <= photos <= s.maxUploadPhotos)
            || (photos == 0 && videos <= s.maxUploadVideos))
      && (verdict == Some(MixedMediaTypes) <==> photos > 0 && videos > 0)
      && (verdict == Some(TooFewPhotos) <==> videos == 0 && 0 < photos < s.minUploadPhotos)
      && (verdict == Some(TooManyVideos) <==> photos == 0 && videos > s.maxUploadVideos)
      && verdict != Some(TooManyFiles)
    ensures ValidateFileCount(s, |kinds|) == if |kinds| <= s.maxUploadFiles then None else Some(TooManyFiles)
  {
    CountIsMultiplicity(kinds, Photo);
    CountIsMultiplicity(kinds, Video);
  }

  /**
    The startup check on the photo bounds is exact: it fails if and only if no upload with a photo in
    it could ever be accepted.
   */
  lemma PhotoBoundsAreExact(s: Settings)
    requires FieldsInRange(s)
    ensures Load(s) == Err(PhotoBoundsUnsatisfiable) <==>
            forall kinds :: Photo in kinds ==> ValidateUploadCounts(s, kinds) != None
  {
    if s.minUploadPhotos <= s.maxUploadPhotos {
      var kinds := Photos(s.minUploadPhotos);
      assert Photo in kinds && ValidateUploadCounts(s, kinds) == None;
    }
  }

  /** Parts of unrecognised types are bounded by the file count alone. */
  lemma OnlyTheFileCountBoundsTheRest(s: Settings, kinds: seq<MediaKind>)
    requires FieldsInRange(s) && Photo !in kinds && Video !in kinds
    ensures ValidateUploadCounts(s, kinds) == None
    ensures ValidateFileCount(s, |kinds|) == None <==> Count(kinds, Unrecognised) <= s.maxUploadFiles
  {
    CountsPartition(kinds);
  }
}
