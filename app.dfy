/**
 * The application shell (src/App.jsx): the "top reports" strip, the
 * document each saved report becomes in the store, and the two upload
 * paths — syncing the local queue and uploading one report at once.
 */
module App {
  import opened Wrappers
  import opened Seqs
  import opened Sumbong
  import opened ReportView
  import opened Hooks

  /** `v || d` on a text field: an absent or empty value gives the default. */
  function OrDefault(v: Option<string>, d: string): (r: string)
    ensures v.Some? && v.value != "" ==> r == v.value
    ensures v.None? || v.value == "" ==> r == d
  {
    if v.Some? && v.value != "" then v.value else d
  }

  /** A stored `votes` field: a number, or anything else. */
  datatype VoteField = Number(n: int) | NotNumber

  /** `typeof votes === 'number' ? votes : 0`. */
  function NumericOr0(v: VoteField): int {
    match v
    case Number(n) => n
    case NotNumber => 0
  }

  // ---------------------------------------------------------------------------
  // Top reports.

  /** A verified report as the store returns it. */
  datatype StoredReport = StoredReport(id: string, title: Option<string>, location: Option<string>,
                                       votes: VoteField, imageUrl: Option<string>, authorName: Option<string>)

  /** A card of the top-reports strip. `imageUrl` is `None` for `null`. */
  datatype TopReport = TopReport(id: string, title: string, location: string, votes: int,
                                 imageUrl: Option<string>, authorName: string)

  /** The snapshot's `map`: every field gets its default when missing. */
  function Normalise(d: StoredReport): (t: TopReport)
    ensures t.id == d.id
    ensures t.title != "" && t.authorName != ""
    ensures t.title == OrDefault(d.title, "Community Report")
    ensures t.location == OrDefault(d.location, "")
    ensures d.votes.Number? ==> t.votes == d.votes.n
    ensures d.votes.NotNumber? ==> t.votes == 0
    ensures t.imageUrl.Some? <==> d.imageUrl.Some? && d.imageUrl.value != ""
    ensures t.imageUrl.Some? ==> t.imageUrl == d.imageUrl
    ensures t.authorName == OrDefault(d.authorName, "Anonymous")
  {
    TopReport(d.id, OrDefault(d.title, "Community Report"), OrDefault(d.location, ""), NumericOr0(d.votes),
              if d.imageUrl.Some? && d.imageUrl.value != "" then d.imageUrl else None,
              OrDefault(d.authorName, "Anonymous"))
  }

  function VoteKey(t: TopReport): real {
    t.votes as real
  }

  /** `list.sort((a, b) => (b.votes || 0) - (a.votes || 0)).slice(0, 5)`. */
  function TopReports(docs: seq<StoredReport>): seq<TopReport> {
    Take(SortDesc(Map(docs, Normalise), VoteKey), 5)
  }

  /** The strip: five cards (fewer when the store has fewer), votes non-increasing. */
  lemma TopReportsRanked(docs: seq<StoredReport>)
    ensures |TopReports(docs)| == if |docs| < 5 then |docs| else 5
    ensures forall i, j :: 0 <= i < j < |TopReports(docs)| ==> TopReports(docs)[i].votes >= TopReports(docs)[j].votes
  {
    var top := TopReports(docs);
    TopDescending(Map(docs, Normalise), VoteKey, 5);
    forall i, j | 0 <= i < j < |top| ensures top[i].votes >= top[j].votes {
      assert VoteKey(top[i]) >= VoteKey(top[j]);
    }
  }

  /** No report left out of the strip has more votes than the last card. */
  lemma TopReportsLeftOut(docs: seq<StoredReport>)
    ensures forall d :: d in docs ==>
              Normalise(d) in TopReports(docs) || (|docs| >= 5 && Normalise(d).votes <= TopReports(docs)[4].votes)
  {
    var all := Map(docs, Normalise);
    var top := TopReports(docs);
    TopDominates(all, VoteKey, 5);
    forall d | d in docs ensures Normalise(d) in top || (|docs| >= 5 && Normalise(d).votes <= top[4].votes) {
      var k :| 0 <= k < |docs| && docs[k] == d;
      assert all[k] == Normalise(d);
      if Normalise(d) !in top {
        assert VoteKey(Normalise(d)) <= VoteKey(top[4]);
      }
    }
  }

  /**
   * Each card is a stored report with its defaults, and no report is shown
   * more often than the store holds it.
   */
  lemma TopReportsFromStore(docs: seq<StoredReport>)
    ensures multiset(TopReports(docs)) <= multiset(Map(docs, Normalise))
    ensures forall t :: t in TopReports(docs) ==> exists d :: d in docs && t == Normalise(d)
  {
    var all := Map(docs, Normalise);
    TopDescending(all, VoteKey, 5);
    forall t | t in TopReports(docs) ensures exists d :: d in docs && t == Normalise(d) {
      assert t in all;
      var k :| 0 <= k < |all| && all[k] == t;
      assert docs[k] in docs;
    }
  }

  // ---------------------------------------------------------------------------
  // Upload documents.

  /** The signed-in user. */
  datatype User = User(uid: string, displayName: Option<string>, photoURL: Option<string>)

  /**
   * The document `addDoc` receives: the saved report's own fields, then the
   * author, the image, the project's title and location (or their
   * defaults), status "Verified" and no votes. The server timestamp is not
   * modelled.
   */
  datatype Document = Document(report: Draft, userId: string, authorName: string, authorPhoto: Option<string>,
                               imageUrl: string, title: string, location: string, project: Option<Project>,
                               status: string, votes: int)

  /** The report document of `uploadNow` and of each queued report in `handleSync`. */
  function ToDocument(report: Draft, project: Option<Project>, user: User): (d: Document)
    ensures d.report == report && d.imageUrl == report.image && d.project == project
    ensures d.userId == user.uid
    ensures d.authorPhoto.Some? <==> user.photoURL.Some? && user.photoURL.value != ""
    ensures d.authorPhoto.Some? ==> d.authorPhoto == user.photoURL
    ensures d.status == "Verified" && d.votes == 0
    ensures d.title != "" && d.location != "" && d.authorName != ""
    ensures project.Some? && project.value.desc != "" ==> d.title == project.value.desc
    ensures project.None? || project.value.desc == "" ==> d.title == "Community Report"
    ensures project.Some? && project.value.location != "" ==> d.location == project.value.location
    ensures project.None? || project.value.location == "" ==> d.location == "Unknown Location"
    ensures d.authorName == OrDefault(user.displayName, "Anonymous Citizen")
  {
    var desc := if project.Some? then Some(project.value.desc) else None;
    var location := if project.Some? then Some(project.value.location) else None;
    var photo := if user.photoURL.Some? && user.photoURL.value != "" then user.photoURL else None;
    Document(report, user.uid, OrDefault(user.displayName, "Anonymous Citizen"), photo, report.image,
             OrDefault(desc, "Community Report"), OrDefault(location, "Unknown Location"), project, "Verified", 0)
  }

  /** `reports.map(...)` of `handleSync`: a queued report carries no project, so it gets the defaults. */
  function QueueDocuments(reports: seq<Draft>, user: User): (docs: seq<Document>)
    ensures |docs| == |reports|
    ensures forall i :: 0 <= i < |reports| ==> docs[i] == ToDocument(reports[i], None, user)
    ensures forall d :: d in docs ==> d.title == "Community Report" && d.location == "Unknown Location"
  {
    seq(|reports|, i requires 0 <= i < |reports| => ToDocument(reports[i], None, user))
  }

  // ---------------------------------------------------------------------------
  // Upload policy.

  const Encrypting := "status_encrypting"
  const Uploading := "status_uploading"
  const Verifying := "status_verifying"
  const Success := "status_success"
  const LoginError := "Error: Please log in to upload"

  /**
   * The sync modal's state and the queue it drains. Each upload method runs
   * to the end of its timers; `shown` lists the statuses displayed in order,
   * and `failure` is the error an upload raised, if any.
   */
  class Uploader {
    var isSyncing: bool
    var status: string
    var progress: int
    const queue: ReportQueue

    constructor (queue: ReportQueue)
      ensures !isSyncing && status == "" && progress == 0 && this.queue == queue
    {
      isSyncing := false;
      status := "";
      progress := 0;
      this.queue := queue;
    }

    /**
     * `handleSync`. Without a user nothing is sent and the queue stays.
     * Otherwise every queued report is sent; the queue is cleared only once
     * all of them succeed, and a failure shows its message and keeps it.
     */
    method HandleSync(user: Option<User>, failure: Option<string>) returns (sent: seq<Document>, shown: seq<string>)
      modifies this, queue
      ensures user.None? ==>
                && sent == [] && queue.reports == old(queue.reports)
                && shown == [Encrypting, LoginError] && status == LoginError && !isSyncing && progress == 0
      ensures user.Some? ==> sent == QueueDocuments(old(queue.reports), user.value)
      ensures user.Some? && failure.Some? && old(queue.reports) != [] ==>
                && queue.reports == old(queue.reports)
                && shown == [Encrypting, Uploading, "Error: " + failure.value]
                && status == "Error: " + failure.value && isSyncing && progress == 70
      ensures user.Some? && (failure.None? || old(queue.reports) == []) ==>
                && queue.reports == []
                && shown == (if old(queue.reports) == [] then [Encrypting] else [Encrypting, Uploading]) + [Verifying, Success, ""]
                && status == "" && !isSyncing && progress == 0
      ensures old(queue.stored) == Some(old(queue.reports)) ==> queue.stored == Some(queue.reports)
    {
      isSyncing, status, progress := true, Encrypting, 30;
      shown := [status];
      sent := [];
      if user.None? {
        status := LoginError;
        shown := shown + [status];
        // The two-second timer.
        isSyncing, progress := false, 0;
        return;
      }
      if queue.reports != [] {
        status, progress := Uploading, 70;
        shown := shown + [status];
        sent := QueueDocuments(queue.reports, user.value);
        if failure.Some? {
          status := "Error: " + failure.value;
          shown := shown + [status];
          return;
        }
      }
      status, progress := Verifying, 90;
      shown := shown + [status];
      // The one-second timer.
      progress, status := 100, Success;
      shown := shown + [status];
      queue.Clear();
      // The timer of a second and a half.
      isSyncing, progress, status := false, 0, "";
      shown := shown + [status];
    }

    /**
     * `uploadNow`, the path a report saved from the report screen takes:
     * one document for that report and its project. The queue is never
     * read or changed.
     */
    method UploadNow(report: Draft, project: Option<Project>, user: Option<User>, failure: Option<string>)
      returns (sent: seq<Document>, shown: seq<string>)
      modifies this
      ensures queue.reports == old(queue.reports) && queue.stored == old(queue.stored)
      ensures user.None? ==>
                sent == [] && shown == [Encrypting, LoginError] && status == LoginError && !isSyncing && progress == 0
      ensures user.Some? ==> sent == [ToDocument(report, project, user.value)]
      ensures user.Some? && failure.Some? ==>
                shown == [Encrypting, Uploading, "Error: " + failure.value] && status == "Error: " + failure.value
                && isSyncing && progress == 70
      ensures user.Some? && failure.None? ==>
                shown == [Encrypting, Uploading, Verifying, Success, ""] && status == "" && !isSyncing && progress == 0
    {
      isSyncing, status, progress := true, Encrypting, 30;
      shown := [status];
      sent := [];
      if user.None? {
        status := LoginError;
        shown := shown + [status];
        isSyncing, progress := false, 0;
        return;
      }
      status, progress := Uploading, 70;
      shown := shown + [status];
      sent := [ToDocument(report, project, user.value)];
      if failure.Some? {
        status := "Error: " + failure.value;
        shown := shown + [status];
        return;
      }
      status, progress := Verifying, 90;
      shown := shown + [status];
      progress, status := 100, Success;
      shown := shown + [status];
      isSyncing, progress, status := false, 0, "";
      shown := shown + [status];
    }
  }
}
