/**
 * The analysis workspace of the resume screening dashboard: five job
 * criteria fields, a batch of selected resume files, one upload lifecycle,
 * the ranked results returned by the scoring service, a per-result
 * show/hide map and the chart series derived from the ranked results.
 */
module ResumeATS {
  import opened Wrappers

  // ---------------------------------------------------------------------
  // Data model
  // ---------------------------------------------------------------------

  /** A resume handle as the browser's file picker yields it; its bytes are opaque. */
  datatype ResumeFile = ResumeFile(name: string, sizeBytes: nat)

  /**
   * One scored resume as the service returns it. `missingSkills` is `None`
   * when the service omitted the key or sent something other than an array.
   */
  datatype AnalysisResult = AnalysisResult(
    filename: string,
    matchPercentage: int,
    summary: string,
    missingSkills: Option<seq<string>>)

  /** The body of a response the service delivered with a success status. */
  datatype ResponseBody = ArrayBody(items: seq<AnalysisResult>) | NonArrayBody

  /** The four values the status line takes; `Idle` is the initial empty string. */
  datatype UploadStatus = Idle | Analyzing | Complete | Error

  /** The text shown in the status line for each status. */
  function StatusMessage(s: UploadStatus): (t: string)
    ensures t == "" <==> s == Idle
  {
    match s
    case Idle => ""
    case Analyzing => "Analyzing resumes..."
    case Complete => "Analysis complete!"
    case Error => "Error during upload"
  }

  // ---------------------------------------------------------------------
  // Job requirement fields
  // ---------------------------------------------------------------------

  datatype JobField = Skills | Experience | Education | Tools | Description

  /** The form-field name of each criterion, which is also its key in the request. */
  function KeyName(f: JobField): string
  {
    match f
    case Skills => "skills"
    case Experience => "experience"
    case Education => "education"
    case Tools => "tools"
    case Description => "description"
  }

  /** The key order of the criteria record, as the initial state declares it. */
  const FieldOrder: seq<JobField> := [Skills, Experience, Education, Tools, Description]

  datatype JobFields = JobFields(
    skills: string,
    experience: string,
    education: string,
    tools: string,
    description: string)
  {
    function Get(f: JobField): string
    {
      match f
      case Skills => skills
      case Experience => experience
      case Education => education
      case Tools => tools
      case Description => description
    }

    /** The record with field `f` replaced by `v`, any string accepted. */
    function With(f: JobField, v: string): (r: JobFields)
      ensures r.Get(f) == v
      ensures forall g :: g != f ==> r.Get(g) == Get(g)
    {
      match f
      case Skills => this.(skills := v)
      case Experience => this.(experience := v)
      case Education => this.(education := v)
      case Tools => this.(tools := v)
      case Description => this.(description := v)
    }

    /** The record's (key, value) pairs in key order. */
    function Entries(): (es: seq<(string, string)>)
      ensures |es| == |FieldOrder|
      ensures forall k :: 0 <= k < |es| ==> es[k] == (KeyName(FieldOrder[k]), Get(FieldOrder[k]))
    {
      [("skills", skills), ("experience", experience), ("education", education),
       ("tools", tools), ("description", description)]
    }
  }

  const EmptyJobFields := JobFields("", "", "", "", "")

  // ---------------------------------------------------------------------
  // The multipart request payload
  // ---------------------------------------------------------------------

  /** The part name under which every resume file is appended. */
  const ResumesPart := "resumes"

  datatype Part = FilePart(file: ResumeFile) | TextPart(key: string, value: string)
  {
    function Name(): string
    {
      match this
      case FilePart(_) => ResumesPart
      case TextPart(k, _) => k
    }
  }

  /** One file part per resume, in selection order. */
  function FileParts(files: seq<ResumeFile>): (ps: seq<Part>)
    ensures |ps| == |files|
    ensures forall i :: 0 <= i < |files| ==> ps[i] == FilePart(files[i])
  {
    if files == [] then [] else [FilePart(files[0])] + FileParts(files[1..])
  }

  /** One text part per (key, value) entry of the criteria record, in key order. */
  function FieldParts(fields: JobFields): seq<Part>
  {
    var es := fields.Entries();
    seq(|es|, k requires 0 <= k < |es| => TextPart(es[k].0, es[k].1))
  }

  /** The request body: every selected file, then every criterion. */
  function Payload(files: seq<ResumeFile>, fields: JobFields): seq<Part>
  {
    FileParts(files) + FieldParts(fields)
  }

  /** The parts of `ps` carrying the name `n`, in order. */
  function PartsNamed(ps: seq<Part>, n: string): seq<Part>
  {
    if ps == [] then []
    else (if ps[0].Name() == n then [ps[0]] else []) + PartsNamed(ps[1..], n)
  }

  lemma {:induction false} PartsNamedAppend(a: seq<Part>, b: seq<Part>, n: string)
    ensures PartsNamed(a + b, n) == PartsNamed(a, n) + PartsNamed(b, n)
    decreases |a|
  {
    if a == [] {
      assert a + b == b;
    } else {
      assert a + b == [a[0]] + (a[1..] + b);
      assert a == [a[0]] + a[1..];
      PartsNamedCons(a[0], a[1..] + b, n);
      PartsNamedCons(a[0], a[1..], n);
      PartsNamedAppend(a[1..], b, n);
    }
  }

  lemma {:induction false} FilePartsNamed(files: seq<ResumeFile>, n: string)
    ensures PartsNamed(FileParts(files), n) == if n == ResumesPart then FileParts(files) else []
    decreases |files|
  {
    if files != [] {
      var ps := FileParts(files);
      assert ps[1..] == FileParts(files[1..]);
      FilePartsNamed(files[1..], n);
    }
  }

  lemma PartsNamedCons(p: Part, rest: seq<Part>, n: string)
    ensures PartsNamed([p] + rest, n) == (if p.Name() == n then [p] else []) + PartsNamed(rest, n)
  {
  }

  lemma FieldPartsLiteral(fields: JobFields)
    ensures FieldParts(fields) == [TextPart("skills", fields.skills), TextPart("experience", fields.experience),
      TextPart("education", fields.education), TextPart("tools", fields.tools),
      TextPart("description", fields.description)]
  {
  }

  lemma FieldPartsNamed(fields: JobFields, n: string)
    ensures PartsNamed(FieldParts(fields), n) == (if n == "skills" then [TextPart(n, fields.skills)] else [])
      + (if n == "experience" then [TextPart(n, fields.experience)] else [])
      + (if n == "education" then [TextPart(n, fields.education)] else [])
      + (if n == "tools" then [TextPart(n, fields.tools)] else [])
      + (if n == "description" then [TextPart(n, fields.description)] else [])
  {
    FieldPartsLiteral(fields);
    var a, b, c := TextPart("skills", fields.skills), TextPart("experience", fields.experience), TextPart("education", fields.education);
    var d, e := TextPart("tools", fields.tools), TextPart("description", fields.description);
    PartsNamedCons(e, [], n);
    PartsNamedCons(d, [e], n);
    PartsNamedCons(c, [d, e], n);
    PartsNamedCons(b, [c, d, e], n);
    PartsNamedCons(a, [b, c, d, e], n);
    assert [e] + [] == [e];
    assert [d] + [e] == [d, e];
    assert [c] + [d, e] == [c, d, e];
    assert [b] + [c, d, e] == [b, c, d, e];
    assert [a] + [b, c, d, e] == [a, b, c, d, e];
  }

  lemma PayloadFieldPart(files: seq<ResumeFile>, fields: JobFields, f: JobField)
    ensures PartsNamed(Payload(files, fields), KeyName(f)) == [TextPart(KeyName(f), fields.Get(f))]
  {
    PartsNamedAppend(FileParts(files), FieldParts(fields), KeyName(f));
    FilePartsNamed(files, KeyName(f));
    FieldPartsNamed(fields, KeyName(f));
    match f
    case Skills =>
    case Experience =>
    case Education =>
    case Tools =>
    case Description =>
  }

  /**
   * The payload holds exactly one "resumes" part per selected file, in
   * selection order, and exactly one part for each criterion, carrying
   * the criterion's current value.
   */
  lemma PayloadParts(files: seq<ResumeFile>, fields: JobFields)
    ensures PartsNamed(Payload(files, fields), ResumesPart) == FileParts(files)
    ensures forall f :: PartsNamed(Payload(files, fields), KeyName(f)) == [TextPart(KeyName(f), fields.Get(f))]
  {
    PartsNamedAppend(FileParts(files), FieldParts(fields), ResumesPart);
    FilePartsNamed(files, ResumesPart);
    FieldPartsNamed(fields, ResumesPart);
    forall f ensures PartsNamed(Payload(files, fields), KeyName(f)) == [TextPart(KeyName(f), fields.Get(f))] {
      PayloadFieldPart(files, fields, f);
    }
  }

  /** Builds the request body the way the upload handler appends to it: files first, then the criteria entries. */
  method BuildPayload(files: seq<ResumeFile>, fields: JobFields) returns (parts: seq<Part>)
    ensures parts == Payload(files, fields)
  {
    parts := [];
    for i := 0 to |files|
      invariant parts == FileParts(files[..i])
    {
      assert files[..i + 1] == files[..i] + [files[i]];
      parts := parts + [FilePart(files[i])];
    }
    assert files[..|files|] == files;
    var entries := fields.Entries();
    ghost var prefix := parts;
    for k := 0 to |entries|
      invariant |parts| == |prefix| + k
      invariant parts[..|prefix|] == prefix
      invariant forall j :: 0 <= j < k ==> parts[|prefix| + j] == TextPart(entries[j].0, entries[j].1)
    {
      parts := parts + [TextPart(entries[k].0, entries[k].1)];
    }
    assert parts == prefix + FieldParts(fields);
  }

  // ---------------------------------------------------------------------
  // Ranking: a stable sort by descending match percentage
  // ---------------------------------------------------------------------

  predicate SortedDesc(s: seq<AnalysisResult>)
  {
    forall i, j :: 0 <= i < j < |s| ==> s[i].matchPercentage >= s[j].matchPercentage
  }

  /** The results of `s` whose score is `k`, in their order in `s`. */
  function WithScore(s: seq<AnalysisResult>, k: int): (r: seq<AnalysisResult>)
    ensures forall y :: y in r ==> y in s && y.matchPercentage == k
  {
    if s == [] then []
    else (if s[0].matchPercentage == k then [s[0]] else []) + WithScore(s[1..], k)
  }

  /**
   * Inserts `x`, which precedes every element of `t` in the service's
   * order, in front of the first element it does not lose to.
   */
  function Insert(x: AnalysisResult, t: seq<AnalysisResult>): (r: seq<AnalysisResult>)
    ensures |r| == |t| + 1
    ensures multiset(r) == multiset(t) + multiset{x}
  {
    if t == [] || t[0].matchPercentage <= x.matchPercentage then
      [x] + t
    else
      assert t == [t[0]] + t[1..];
      [t[0]] + Insert(x, t[1..])
  }

  /** A head that bounds every later score keeps a sorted sequence sorted. */
  lemma ConsSorted(h: AnalysisResult, rest: seq<AnalysisResult>)
    requires SortedDesc(rest)
    requires forall j :: 0 <= j < |rest| ==> rest[j].matchPercentage <= h.matchPercentage
    ensures SortedDesc([h] + rest)
  {
    var r := [h] + rest;
    forall i, j | 0 <= i < j < |r| ensures r[i].matchPercentage >= r[j].matchPercentage {
      assert r[j] == rest[j - 1];
      if i > 0 {
        assert r[i] == rest[i - 1];
      }
    }
  }

  lemma {:induction false} InsertSorted(x: AnalysisResult, t: seq<AnalysisResult>)
    requires SortedDesc(t)
    ensures SortedDesc(Insert(x, t))
    decreases |t|
  {
    if t == [] || t[0].matchPercentage <= x.matchPercentage {
      ConsSorted(x, t);
    } else {
      var rest := Insert(x, t[1..]);
      assert SortedDesc(t[1..]);
      InsertSorted(x, t[1..]);
      forall j | 0 <= j < |rest| ensures rest[j].matchPercentage <= t[0].matchPercentage {
        var y := rest[j];
        assert y in multiset(rest);
        if y != x {
          assert y in multiset(t[1..]);
          HeadIsMax(t, y);
        }
      }
      ConsSorted(t[0], rest);
    }
  }

  lemma WithScoreCons(y: AnalysisResult, t: seq<AnalysisResult>, k: int)
    ensures WithScore([y] + t, k) == (if y.matchPercentage == k then [y] else []) + WithScore(t, k)
  {
  }

  /** Inserting `x` puts it first among the results with its score and moves no other result of any score. */
  lemma {:induction false} InsertGroups(x: AnalysisResult, t: seq<AnalysisResult>, k: int)
    ensures WithScore(Insert(x, t), k) == if k == x.matchPercentage then [x] + WithScore(t, k) else WithScore(t, k)
    decreases |t|
  {
    if t == [] || t[0].matchPercentage <= x.matchPercentage {
      WithScoreCons(x, t, k);
    } else {
      InsertGroups(x, t[1..], k);
      WithScoreCons(t[0], Insert(x, t[1..]), k);
      WithScoreCons(t[0], t[1..], k);
      assert t == [t[0]] + t[1..];
    }
  }

  /** The service's results ranked best first; a permutation of `s`. */
  function Rank(s: seq<AnalysisResult>): (r: seq<AnalysisResult>)
    ensures |r| == |s|
    ensures SortedDesc(r)
    ensures multiset(r) == multiset(s)
  {
    if s == [] then []
    else
      assert s == [s[0]] + s[1..];
      InsertSorted(s[0], Rank(s[1..]));
      Insert(s[0], Rank(s[1..]))
  }

  /**
   * Ties keep the service's order: for every score, the results with that
   * score appear in Rank's output in the same order as in `s`.
   */
  lemma {:induction false} RankGroups(s: seq<AnalysisResult>, k: int)
    ensures WithScore(Rank(s), k) == WithScore(s, k)
  {
    if s != [] {
      RankGroups(s[1..], k);
      InsertGroups(s[0], Rank(s[1..]), k);
      WithScoreCons(s[0], s[1..], k);
      assert s == [s[0]] + s[1..];
    }
  }

  lemma HeadIsMax(s: seq<AnalysisResult>, y: AnalysisResult)
    requires SortedDesc(s) && y in s
    ensures s[0].matchPercentage >= y.matchPercentage
  {
    var j :| 0 <= j < |s| && s[j] == y;
  }

  /**
   * Two sorted sequences that agree, score by score, on the order of their
   * results are equal.
   */
  lemma {:induction false} SortedGroupsDetermine(a: seq<AnalysisResult>, b: seq<AnalysisResult>)
    requires SortedDesc(a) && SortedDesc(b)
    requires forall k :: WithScore(a, k) == WithScore(b, k)
    ensures a == b
    decreases |a|
  {
    assert b != [] ==> b[0] in WithScore(b, b[0].matchPercentage);
    assert a != [] ==> a[0] in WithScore(a, a[0].matchPercentage);
    if a != [] && b != [] {
      var m, n := a[0].matchPercentage, b[0].matchPercentage;
      HeadIsMax(b, a[0]);
      HeadIsMax(a, b[0]);
      assert m == n;
      assert WithScore(a, m)[0] == a[0];
      assert WithScore(b, m)[0] == b[0];
      forall k ensures WithScore(a[1..], k) == WithScore(b[1..], k) {
        var p := if a[0].matchPercentage == k then [a[0]] else [];
        assert WithScore(a, k) == p + WithScore(a[1..], k);
        assert WithScore(b, k) == p + WithScore(b[1..], k);
        assert WithScore(a[1..], k) == WithScore(a, k)[|p|..];
      }
      SortedGroupsDetermine(a[1..], b[1..]);
      assert a == [a[0]] + a[1..];
      assert b == [b[0]] + b[1..];
    }
  }

  /**
   * Rank is the only stable descending sort: any sorted arrangement of the
   * results that keeps the service's order among equal scores is Rank's.
   * So any sort the platform is allowed to perform yields Rank's order.
   */
  lemma RankIsTheStableSort(s: seq<AnalysisResult>, t: seq<AnalysisResult>)
    requires SortedDesc(t)
    requires forall k :: WithScore(t, k) == WithScore(s, k)
    ensures t == Rank(s)
  {
    forall k ensures WithScore(t, k) == WithScore(Rank(s), k) {
      RankGroups(s, k);
    }
    SortedGroupsDetermine(t, Rank(s));
  }

  // ---------------------------------------------------------------------
  // Per-result detail visibility
  // ---------------------------------------------------------------------

  /** Whether the detail panel of result `i` is open: a missing key reads as closed. */
  predicate IsShown(m: map<nat, bool>, i: nat)
  {
    i in m && m[i]
  }

  /** The map after flipping entry `i`; a missing key reads as closed, so it becomes open. */
  function Toggled(m: map<nat, bool>, i: nat): (r: map<nat, bool>)
    ensures IsShown(r, i) == !IsShown(m, i)
    ensures r.Keys == m.Keys + {i}
    ensures forall j :: j in m && j != i ==> r[j] == m[j]
  {
    m[i := !IsShown(m, i)]
  }

  /** Flipping an existing entry twice restores the map. */
  lemma ToggleTwice(m: map<nat, bool>, i: nat)
    requires i in m
    ensures Toggled(Toggled(m, i), i) == m
  {
  }

  /** A map holding exactly the keys 0 .. |rs| - 1, every one closed. */
  method BuildVisibility(rs: seq<AnalysisResult>) returns (v: map<nat, bool>)
    ensures forall i: nat :: i in v <==> i < |rs|
    ensures forall i :: i in v ==> !v[i]
  {
    v := map[];
    var i := 0;
    while i < |rs|
      invariant i <= |rs|
      invariant forall j: nat :: j in v <==> j < i
      invariant forall j :: j in v ==> !v[j]
    {
      v := v[i := false];
      i := i + 1;
    }
  }

  // ---------------------------------------------------------------------
  // Chart projection and result cards
  // ---------------------------------------------------------------------

  const LabelLimit := 15
  const Ellipsis := "..."

  /** The chart's label for a file name: names longer than 15 characters are cut to 15 and marked. */
  function Label(name: string): (r: string)
    ensures |name| <= LabelLimit ==> r == name
    ensures |name| > LabelLimit ==> |r| == LabelLimit + |Ellipsis| && r[..LabelLimit] == name[..LabelLimit] && r[LabelLimit..] == Ellipsis
  {
    if |name| > LabelLimit then name[..LabelLimit] + Ellipsis else name
  }

  /** Labelling a label changes nothing. */
  lemma LabelIdempotent(name: string)
    ensures Label(Label(name)) == Label(name)
  {
  }

  datatype ChartPoint = ChartPoint(name: string, matchScore: int)

  /** One bar per result, in the results' order. */
  function ChartData(rs: seq<AnalysisResult>): (c: seq<ChartPoint>)
    ensures |c| == |rs|
    ensures forall i :: 0 <= i < |rs| ==> c[i].name == Label(rs[i].filename) && c[i].matchScore == rs[i].matchPercentage
    ensures SortedDesc(rs) ==> forall i, j :: 0 <= i < j < |c| ==> c[i].matchScore >= c[j].matchScore
  {
    if rs == [] then []
    else [ChartPoint(Label(rs[0].filename), rs[0].matchPercentage)] + ChartData(rs[1..])
  }

  /** The skills listed in a detail panel: the service's list when it sent one, else none. */
  function MissingSkillsShown(r: AnalysisResult): (skills: seq<string>)
    ensures r.missingSkills.Some? ==> skills == r.missingSkills.value
    ensures r.missingSkills.None? ==> skills == []
  {
    r.missingSkills.GetOr([])
  }

  datatype Details = Details(summary: string, missingSkills: seq<string>)

  /** What one result's card shows: name, score, the button's caption and, when open, the details. */
  datatype Card = Card(filename: string, score: int, button: string, details: Option<Details>)

  function CardOf(r: AnalysisResult, shown: bool): (c: Card)
    ensures c.details.Some? <==> shown
    ensures c.button == (if shown then "Hide Details" else "Show Details")
    ensures c.details.Some? ==> c.details.value == Details(r.summary, MissingSkillsShown(r))
    ensures c.filename == r.filename && c.score == r.matchPercentage
  {
    Card(r.filename, r.matchPercentage,
         if shown then "Hide Details" else "Show Details",
         if shown then Some(Details(r.summary, MissingSkillsShown(r))) else None)
  }

  /** Flipping one entry changes the card at that index only. */
  lemma ToggleChangesOneCard(rs: seq<AnalysisResult>, m: map<nat, bool>, i: nat, j: nat)
    requires j < |rs| && j != i
    ensures CardOf(rs[j], IsShown(Toggled(m, i), j)) == CardOf(rs[j], IsShown(m, j))
  {
  }

  // ---------------------------------------------------------------------
  // The workspace
  // ---------------------------------------------------------------------

  /** What the upload handler did when invoked. */
  datatype UploadStart = Rejected | Dispatched(payload: seq<Part>)

  class Workspace {
    var selectedFiles: seq<ResumeFile>
    var uploadStatus: UploadStatus
    var response: seq<AnalysisResult>
    var showDetails: map<nat, bool>
    var jobFields: JobFields
    /** The number of dispatched requests whose completion has not yet run. */
    ghost var inFlight: nat

    /** The visibility map has exactly one entry per ranked result. */
    ghost predicate VisibilityAligned()
      reads this
    {
      forall i: nat :: i in showDetails <==> i < |response|
    }

    constructor ()
      ensures selectedFiles == [] && uploadStatus == Idle && response == []
      ensures showDetails == map[] && jobFields == EmptyJobFields && inFlight == 0
      ensures VisibilityAligned()
    {
      selectedFiles := [];
      uploadStatus := Idle;
      response := [];
      showDetails := map[];
      jobFields := EmptyJobFields;
      inFlight := 0;
    }

    /** A new pick replaces the batch outright. */
    method HandleFileChange(files: seq<ResumeFile>)
      modifies this
      ensures selectedFiles == files
      ensures uploadStatus == old(uploadStatus) && response == old(response) && showDetails == old(showDetails)
      ensures jobFields == old(jobFields) && inFlight == old(inFlight)
      ensures old(VisibilityAligned()) ==> VisibilityAligned()
    {
      selectedFiles := files;
    }

    method HandleChange(f: JobField, value: string)
      modifies this
      ensures jobFields == old(jobFields).With(f, value)
      ensures selectedFiles == old(selectedFiles) && uploadStatus == old(uploadStatus)
      ensures response == old(response) && showDetails == old(showDetails) && inFlight == old(inFlight)
      ensures old(VisibilityAligned()) ==> VisibilityAligned()
    {
      jobFields := jobFields.With(f, value);
    }

    /**
     * The synchronous half of the upload handler: an empty batch is refused
     * and nothing changes; otherwise the request body is built, the status
     * becomes Analyzing and one request is dispatched. Nothing checks whether
     * a request is already in flight.
     */
    method BeginUpload() returns (start: UploadStart)
      modifies this
      ensures old(selectedFiles) == [] ==> start == Rejected && unchanged(this)
      ensures old(selectedFiles) != [] ==>
        && start == Dispatched(Payload(old(selectedFiles), old(jobFields)))
        && uploadStatus == Analyzing
        && inFlight == old(inFlight) + 1
        && selectedFiles == old(selectedFiles) && jobFields == old(jobFields)
        && response == old(response) && showDetails == old(showDetails)
      ensures old(VisibilityAligned()) ==> VisibilityAligned()
    {
      if |selectedFiles| == 0 {
        return Rejected;
      }
      var parts := BuildPayload(selectedFiles, jobFields);
      uploadStatus := Analyzing;
      inFlight := inFlight + 1;
      start := Dispatched(parts);
    }

    /**
     * A request completed with a success status. An array body is ranked,
     * becomes the response and gets a fresh, all-closed visibility map; any
     * other body makes the sort throw, which lands in the error path.
     */
    method CompleteSuccess(body: ResponseBody)
      requires inFlight > 0
      modifies this
      ensures inFlight == old(inFlight) - 1
      ensures selectedFiles == old(selectedFiles) && jobFields == old(jobFields)
      ensures body.ArrayBody? ==>
        && response == Rank(body.items)
        && uploadStatus == Complete
        && (forall i: nat :: i in showDetails <==> i < |body.items|)
        && (forall i :: i in showDetails ==> !showDetails[i])
      ensures body.NonArrayBody? ==>
        uploadStatus == Error && response == old(response) && showDetails == old(showDetails)
      ensures body.ArrayBody? || old(VisibilityAligned()) ==> VisibilityAligned()
    {
      inFlight := inFlight - 1;
      if body.NonArrayBody? {
        uploadStatus := Error;
      } else {
        var sorted := Rank(body.items);
        var visibility := BuildVisibility(sorted);
        response := sorted;
        uploadStatus := Complete;
        showDetails := visibility;
      }
    }

    /** A request failed (network error or a non-success status): only the status changes. */
    method CompleteFailure()
      requires inFlight > 0
      modifies this
      ensures uploadStatus == Error && inFlight == old(inFlight) - 1
      ensures response == old(response) && showDetails == old(showDetails)
      ensures selectedFiles == old(selectedFiles) && jobFields == old(jobFields)
      ensures old(VisibilityAligned()) ==> VisibilityAligned()
    {
      inFlight := inFlight - 1;
      uploadStatus := Error;
    }

    method ToggleDetails(i: nat)
      modifies this
      ensures showDetails == Toggled(old(showDetails), i)
      ensures selectedFiles == old(selectedFiles) && uploadStatus == old(uploadStatus)
      ensures response == old(response) && jobFields == old(jobFields) && inFlight == old(inFlight)
      ensures old(VisibilityAligned()) && i < |response| ==> VisibilityAligned()
    {
      showDetails := Toggled(showDetails, i);
    }

    /** The result cards the page renders, one per ranked result. */
    function Cards(): (cs: seq<Card>)
      reads this
      ensures |cs| == |response|
      ensures forall i :: 0 <= i < |cs| ==> cs[i] == CardOf(response[i], IsShown(showDetails, i))
    {
      seq(|response|, i requires 0 <= i < |response| reads this => CardOf(response[i], IsShown(showDetails, i)))
    }
  }
}
