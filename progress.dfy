/**
 * The progress section: the per-student record filter, the progress-rate percentage, the
 * weight trend, the compare-record pick, the required-field checks and the photo gate.
 */
module Progress {
  import opened Common
  import opened Ordering
  import opened Text
  import Upload

  /**
   * A stored record. `recordTime` is `new Date(recordDate).getTime()`; measurements are optional
   * numbers, of which only weight and muscle mass take part in any rule.
   */
  datatype ProgressRecord = ProgressRecord(
    id: string, studentId: string, recordTime: int, weight: Option<real>, muscleMass: Option<real>)

  /** `x || 0` on an optional measurement (0 and absent both read as 0). */
  function OrZero(x: Option<real>): real {
    if x.Some? then x.value else 0.0
  }

  function Time(r: ProgressRecord): int {
    r.recordTime
  }

  /** The sort key of the descending comparator `b - a`. */
  function NegTime(r: ProgressRecord): int {
    -r.recordTime
  }

  function OfStudent(id: string): ProgressRecord -> bool {
    (r: ProgressRecord) => r.studentId == id
  }

  /** The records shown under the student selector ("all" keeps every record). */
  function FilteredRecords(records: seq<ProgressRecord>, selected: string): (r: seq<ProgressRecord>)
    ensures selected == "all" ==> r == records
    ensures selected != "all" ==> r == Filter(records, OfStudent(selected))
  {
    var keep := (rec: ProgressRecord) => selected == "all" || rec.studentId == selected;
    if selected == "all" then
      FilterKeepsAll(records, keep);
      Filter(records, keep)
    else
      assert forall rec :: keep(rec) == OfStudent(selected)(rec);
      FilterSameSelector(records, keep, OfStudent(selected));
      Filter(records, keep)
  }

  lemma {:induction false} FilterSameSelector<T>(s: seq<T>, p: T -> bool, q: T -> bool)
    requires forall x :: p(x) == q(x)
    ensures Filter(s, p) == Filter(s, q)
  {
    if s != [] {
      FilterSameSelector(s[1..], p, q);
    }
  }

  /** With a student selected, exactly that student's records are kept, in their listed order. */
  lemma FilteredRecordsOfStudent(records: seq<ProgressRecord>, selected: string, a: seq<ProgressRecord>, b: seq<ProgressRecord>)
    requires selected != "all" && records == a + b
    ensures forall i :: 0 <= i < |FilteredRecords(records, selected)| ==>
      FilteredRecords(records, selected)[i].studentId == selected
    ensures forall i :: 0 <= i < |records| && records[i].studentId == selected ==>
      records[i] in FilteredRecords(records, selected)
    ensures FilteredRecords(records, selected) == FilteredRecords(a, selected) + FilteredRecords(b, selected)
  {
    FilterConcat(a, b, OfStudent(selected));
  }

  /** One student's records, oldest first (the ascending date sort). */
  function History(records: seq<ProgressRecord>, id: string): (h: seq<ProgressRecord>)
    ensures SortedBy(h, Time)
    ensures multiset(h) == multiset(Filter(records, OfStudent(id)))
    ensures forall i :: 0 <= i < |h| ==> h[i].studentId == id && h[i] in records
  {
    var h := SortBy(Filter(records, OfStudent(id)), Time);
    assert forall i :: 0 <= i < |h| ==> h[i] in Filter(records, OfStudent(id)) by {
      forall i | 0 <= i < |h| ensures h[i] in Filter(records, OfStudent(id)) {
        assert h[i] in multiset(h);
      }
    }
    h
  }

  /** A student enters the rate when they have at least two records. */
  predicate Eligible(records: seq<ProgressRecord>, id: string) {
    |Filter(records, OfStudent(id))| >= 2
  }

  /** Weight went down or muscle mass went up between the oldest and the newest record. */
  predicate Progressing(records: seq<ProgressRecord>, id: string) {
    var h := History(records, id);
    |h| >= 2 && (OrZero(h[0].weight) > OrZero(h[|h| - 1].weight)
                 || OrZero(h[0].muscleMass) < OrZero(h[|h| - 1].muscleMass))
  }

  /** `Math.round(x)` for x = 100·p/n, computed exactly: the greatest integer not above x + 1/2. */
  function RoundPercent(p: nat, n: nat): (r: nat)
    requires n > 0
    ensures 2 * n * r <= 200 * p + n < 2 * n * (r + 1)
  {
    (200 * p + n) / (2 * n)
  }

  /** The listed students with at least two records. */
  function EligibleStudents(students: seq<string>, records: seq<ProgressRecord>): seq<string> {
    Filter(students, (id: string) => Eligible(records, id))
  }

  /** The eligible students whose records show progress. */
  function ProgressingStudents(students: seq<string>, records: seq<ProgressRecord>): (r: seq<string>)
    ensures |r| <= |EligibleStudents(students, records)|
    ensures forall i :: 0 <= i < |r| ==> r[i] in students && Eligible(records, r[i]) && Progressing(records, r[i])
    ensures forall id :: id in students && Eligible(records, id) && Progressing(records, id) ==> id in r
  {
    var eligible := EligibleStudents(students, records);
    forall id | id in students && Eligible(records, id) ensures id in eligible {
      var i :| 0 <= i < |students| && students[i] == id;
    }
    Filter(eligible, (id: string) => Progressing(records, id))
  }

  /** A progressing student is counted as often as the list names them; every other student not at all. */
  lemma ProgressingMultiplicity(students: seq<string>, records: seq<ProgressRecord>, id: string)
    ensures multiset(ProgressingStudents(students, records))[id] ==
      if Eligible(records, id) && Progressing(records, id) then multiset(students)[id] else 0
  {
    FilterMultiplicity(students, (id: string) => Eligible(records, id), id);
    FilterMultiplicity(EligibleStudents(students, records), (id: string) => Progressing(records, id), id);
  }

  /**
   * calculateProgressRate: 0 without eligible students, otherwise the integer nearest to
   * 100·p/n (halves rounded up), where p progressing students are among the n eligible ones.
   */
  function ProgressRate(students: seq<string>, records: seq<ProgressRecord>): (rate: nat)
    ensures rate <= 100
    ensures EligibleStudents(students, records) == [] ==> rate == 0
    ensures EligibleStudents(students, records) != [] ==>
      var n, p := |EligibleStudents(students, records)|, |ProgressingStudents(students, records)|;
      2 * n * rate <= 200 * p + n < 2 * n * (rate + 1)
  {
    var eligible := EligibleStudents(students, records);
    if |eligible| == 0 then 0
    else
      var n, p := |eligible|, |ProgressingStudents(students, records)|;
      RateBounds(p, n);
      RoundPercent(p, n)
  }

  /** The rounded percentage stays in 0..100; it is 100 only from 99.5% up and 0 only below 0.5%. */
  lemma RateBounds(p: nat, n: nat)
    requires 0 < n && p <= n
    ensures RoundPercent(p, n) <= 100
    ensures RoundPercent(p, n) == 100 <==> 200 * p >= 199 * n
    ensures RoundPercent(p, n) == 0 <==> 200 * p < n
  {
    var r := RoundPercent(p, n);
    MulLtCancel(2 * n, r, 101);
    if 200 * p >= 199 * n {
      MulLtCancel(2 * n, 100, r + 1);
    }
    if 200 * p < n {
      MulLtCancel(2 * n, r, 1);
    }
  }

  lemma MulLtCancel(c: int, a: int, b: int)
    requires c > 0 && c * a < c * b
    ensures a < b
  {
  }

  /** Students listed without two records never count, so the rate is 0 when nobody qualifies. */
  lemma NoEligibleMeansZero(students: seq<string>, records: seq<ProgressRecord>)
    requires forall i :: 0 <= i < |students| ==> !Eligible(records, students[i])
    ensures ProgressRate(students, records) == 0
  {
    FilterNone(students, (id: string) => Eligible(records, id));
  }

  /** The oldest and newest records compared are the extremes of the student's dates. */
  lemma ProgressComparesExtremes(records: seq<ProgressRecord>, id: string, x: ProgressRecord)
    requires x in records && x.studentId == id
    ensures var h := History(records, id);
      h != [] && h[0].recordTime <= x.recordTime <= h[|h| - 1].recordTime
  {
    var f := Filter(records, OfStudent(id));
    var i :| 0 <= i < |records| && records[i] == x;
    assert OfStudent(id)(records[i]);
    assert x in f;
    var h := History(records, id);
    assert x in multiset(f);
    assert x in multiset(h);
    assert x in h;
    SortedEnds(h, Time, x);
  }

  datatype Trend = Up | Down | Neutral
  datatype WeightTrend = WeightTrend(trend: Trend, difference: real)

  /** getWeightTrend: the current weight against the second-newest record of the student. */
  function GetWeightTrend(records: seq<ProgressRecord>, id: string, current: real): (t: WeightTrend)
    ensures t.difference >= 0.0
    ensures |History(records, id)| < 2 ==> t == WeightTrend(Neutral, 0.0)
    ensures |History(records, id)| >= 2 ==>
      var h := History(records, id);
      var before := OrZero(h[|h| - 2].weight);
      (t.trend == Up <==> current > before) && (t.trend == Down <==> current < before)
      && (t.trend == Up ==> current == before + t.difference)
      && (t.trend != Up ==> current == before - t.difference)
  {
    var h := History(records, id);
    if |h| < 2 then WeightTrend(Neutral, 0.0)
    else
      var difference := current - OrZero(h[|h| - 2].weight);
      WeightTrend(
        if difference > 0.0 then Up else if difference < 0.0 then Down else Neutral,
        if difference < 0.0 then -difference else difference)
  }

  /** The record the trend compares with is dated no later than the newest and no earlier than any other. */
  lemma TrendBaseIsSecondNewest(records: seq<ProgressRecord>, id: string)
    requires |History(records, id)| >= 2
    ensures var h := History(records, id);
      (forall i :: 0 <= i < |h| - 1 ==> h[i].recordTime <= h[|h| - 2].recordTime)
      && h[|h| - 2].recordTime <= h[|h| - 1].recordTime
  {
  }

  /** Candidates for the compare modal: the other records of the same student. */
  function CompareCandidates(records: seq<ProgressRecord>, record: ProgressRecord): (c: seq<ProgressRecord>)
    ensures forall i :: 0 <= i < |c| ==> c[i] in records && c[i].studentId == record.studentId && c[i].id != record.id
    ensures forall i :: 0 <= i < |records| && records[i].studentId == record.studentId && records[i].id != record.id ==> records[i] in c
  {
    Filter(records, (r: ProgressRecord) => r.studentId == record.studentId && r.id != record.id)
  }

  /**
   * openCompareModal's second record: the head of the candidates sorted newest first, or the
   * previous choice when there is no candidate.
   */
  function ComparePick(records: seq<ProgressRecord>, record: ProgressRecord, previous: Option<ProgressRecord>): (r: Option<ProgressRecord>)
    ensures CompareCandidates(records, record) == [] ==> r == previous
    ensures CompareCandidates(records, record) != [] ==> r.Some? && r.value in CompareCandidates(records, record)
  {
    var sorted := SortBy(CompareCandidates(records, record), NegTime);
    if |sorted| > 0 then
      assert sorted[0] in multiset(sorted);
      Some(sorted[0])
    else previous
  }

  /**
   * The pick is the newest other record of the student; among records with that same date it is
   * the one listed first.
   */
  lemma ComparePickIsNewest(records: seq<ProgressRecord>, record: ProgressRecord, previous: Option<ProgressRecord>)
    requires CompareCandidates(records, record) != []
    ensures var c := CompareCandidates(records, record);
      var pick := ComparePick(records, record, previous).value;
      (forall i :: 0 <= i < |c| ==> c[i].recordTime <= pick.recordTime)
      && pick == Filter(c, KeyIs(NegTime, NegTime(pick)))[0]
  {
    var c := CompareCandidates(records, record);
    var sorted := SortBy(c, NegTime);
    var pick := sorted[0];
    forall i | 0 <= i < |c| ensures c[i].recordTime <= pick.recordTime {
      assert c[i] in multiset(sorted);
      SortedEnds(sorted, NegTime, c[i]);
    }
    var p := KeyIs(NegTime, NegTime(pick));
    SortStable(c, NegTime, NegTime(pick));
    assert sorted == [sorted[0]] + sorted[1..];
    FilterConcat([sorted[0]], sorted[1..], p);
    assert Filter([sorted[0]], p) == [pick] by {
      assert [sorted[0]][1..] == [];
    }
  }

  /** handleCreateRecord refuses without a student or a weight; handleEditRecord without a selected record or a weight. */
  datatype RecordCheck = RecordOk | RecordRefused(message: string)

  function CheckCreateRecord(studentId: string, weight: string): (r: RecordCheck)
    ensures r == RecordOk <==> studentId != "" && weight != ""
    ensures r != RecordOk ==> r.message == "Selecione um aluno e informe o peso"
  {
    if studentId == "" || weight == "" then RecordRefused("Selecione um aluno e informe o peso") else RecordOk
  }

  function CheckEditRecord(selected: Option<ProgressRecord>, weight: string): (r: RecordCheck)
    ensures r == RecordOk <==> selected.Some? && weight != ""
    ensures r != RecordOk ==> r.message == "Informe o peso"
  {
    if selected.None? || weight == "" then RecordRefused("Informe o peso") else RecordOk
  }

  /** A picked file: its size in bytes and its MIME type. */
  type FileInfo = Upload.FileInfo

  const MaxPhotoSize := 5 * 1024 * 1024
  const PhotoTypes := ["image/jpeg", "image/png", "image/gif", "image/webp"]
  const MaxPhotos := 10

  datatype PhotoGate =
    | TooLarge(count: nat)
    | BadType(count: nat)
    | TooMany(current: nat, adding: nat)
    | PhotosAccepted

  /** A picked file over the 5 MiB limit. */
  predicate PhotoTooLarge(f: FileInfo) {
    f.size > MaxPhotoSize
  }

  /** A picked file whose type is not among the four accepted. */
  predicate PhotoBadType(f: FileInfo) {
    f.mimeType !in PhotoTypes
  }

  /**
   * The checks of addPhoto on a picked batch: size, then type, then the 10-photo cap. A refusal
   * reports how many files broke the rule that refused the batch.
   */
  function CheckPhotoBatch(files: seq<FileInfo>, current: nat): (g: PhotoGate)
    ensures g == PhotosAccepted <==>
      (forall i :: 0 <= i < |files| ==> !PhotoTooLarge(files[i]) && !PhotoBadType(files[i]))
      && current + |files| <= MaxPhotos
    ensures g.TooLarge? <==> exists i :: 0 <= i < |files| && PhotoTooLarge(files[i])
    ensures g.BadType? <==>
      (forall i :: 0 <= i < |files| ==> !PhotoTooLarge(files[i]))
      && exists i :: 0 <= i < |files| && PhotoBadType(files[i])
    ensures g.TooMany? <==>
      (forall i :: 0 <= i < |files| ==> !PhotoTooLarge(files[i]) && !PhotoBadType(files[i]))
      && current + |files| > MaxPhotos
    ensures g.TooLarge? ==> 1 <= g.count <= |files| && g.count == |Filter(files, PhotoTooLarge)|
    ensures g.BadType? ==> 1 <= g.count <= |files| && g.count == |Filter(files, PhotoBadType)|
    ensures g.TooMany? ==> g.current == current && g.adding == |files|
  {
    var tooLarge := Filter(files, PhotoTooLarge);
    var badType := Filter(files, PhotoBadType);
    assert |tooLarge| > 0 ==> exists i :: 0 <= i < |files| && PhotoTooLarge(files[i]) by {
      if |tooLarge| > 0 {
        var j :| 0 <= j < |files| && files[j] == tooLarge[0];
      }
    }
    assert |badType| > 0 ==> exists i :: 0 <= i < |files| && PhotoBadType(files[i]) by {
      if |badType| > 0 {
        var j :| 0 <= j < |files| && files[j] == badType[0];
      }
    }
    if |tooLarge| > 0 then TooLarge(|tooLarge|)
    else if |badType| > 0 then BadType(|badType|)
    else if current + |files| > MaxPhotos then TooMany(current, |files|)
    else PhotosAccepted
  }

  /**
   * Every photo of an accepted batch also passes the upload hook's validator with its default
   * options: the same 5 MiB limit, and the photo types are among the hook's (which adds image/jpg).
   */
  lemma AcceptedPhotosPassUploadDefaults(files: seq<FileInfo>, current: nat, k: int)
    requires CheckPhotoBatch(files, current) == PhotosAccepted && 0 <= k < |files|
    ensures Upload.ValidateFile(files[k], Upload.DefaultMaxSize, Upload.DefaultTypes).None?
  {
    assert !PhotoBadType(files[k]);
  }

  /** The toast of a refused batch. */
  function PhotoGateMessage(g: PhotoGate): string {
    match g
    case TooLarge(n) => IntToString(n) + " arquivo(s) muito grande(s). Tamanho máximo: 5MB"
    case BadType(n) => IntToString(n) + " arquivo(s) com formato inválido. Use: JPEG, PNG, GIF ou WebP"
    case TooMany(c, a) =>
      "Limite máximo de 10 fotos. Você tem " + IntToString(c) + " e está tentando adicionar " + IntToString(a)
    case PhotosAccepted => ""
  }

  /**
   * Every refusal has a toast, and a size or type toast opens with the number of offending files,
   * which reads back from its leading digits.
   */
  lemma PhotoGateMessageNamesCount(g: PhotoGate)
    ensures PhotoGateMessage(g) == "" <==> g == PhotosAccepted
    ensures (g.TooLarge? || g.BadType?) ==>
      var d := IntToString(g.count);
      d <= PhotoGateMessage(g) && ParseInt(PhotoGateMessage(g)[..|d|]) == g.count
  {
    match g
    case TooLarge(n) =>
      IntToStringRoundTrip(n);
      assert PhotoGateMessage(g)[..|IntToString(n)|] == IntToString(n);
    case BadType(n) =>
      IntToStringRoundTrip(n);
      assert PhotoGateMessage(g)[..|IntToString(n)|] == IntToString(n);
    case TooMany(_, _) =>
    case PhotosAccepted =>
  }

  /** "Remover" on photo i: the list without that photo. */
  function RemovePhoto(photos: seq<string>, i: int): (r: seq<string>)
    ensures 0 <= i < |photos| ==> r == photos[..i] + photos[i + 1..]
    ensures !(0 <= i < |photos|) ==> r == photos
  {
    WithoutIndex(photos, i)
  }

  /**
   * The images a batch adds: each file's resized image, in file order; `resize` stands for
   * resizeImage and fails (None) on a file it cannot read, which then adds nothing.
   */
  function Resized(files: seq<FileInfo>, resize: FileInfo -> Option<string>): (added: seq<string>)
    ensures |added| <= |files|
  {
    if files == [] then []
    else (if resize(files[0]).Some? then [resize(files[0]).value] else []) + Resized(files[1..], resize)
  }

  /** addPhoto on the form's photos: a refused batch leaves them; an accepted one appends its images. */
  function AddPhotos(photos: seq<string>, files: seq<FileInfo>, resize: FileInfo -> Option<string>): (r: seq<string>)
    ensures CheckPhotoBatch(files, |photos|) != PhotosAccepted ==> r == photos
    ensures CheckPhotoBatch(files, |photos|) == PhotosAccepted ==> r == photos + Resized(files, resize)
  {
    if CheckPhotoBatch(files, |photos|) == PhotosAccepted then photos + Resized(files, resize) else photos
  }

  /** Adding a batch and removing a photo both keep a record at no more than 10 photos. */
  lemma PhotoCapKept(photos: seq<string>, files: seq<FileInfo>, resize: FileInfo -> Option<string>, i: int)
    requires |photos| <= MaxPhotos
    ensures |AddPhotos(photos, files, resize)| <= MaxPhotos
    ensures |RemovePhoto(photos, i)| <= MaxPhotos
  {
  }
}
