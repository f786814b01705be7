/**
 * Client code driving the three components through concrete runs, proved
 * from the components' contracts alone.
 */
module Scenarios {
  import opened Wrappers
  import opened ResumeATS
  import Login
  import App

  const FileA := ResumeFile("A.pdf", 2048)
  const FileB := ResumeFile("B.pdf", 4096)
  const ResultA := AnalysisResult("A.pdf", 72, "Backend developer", Some(["Docker"]))
  const ResultB := AnalysisResult("B.pdf", 95, "Full-stack developer", None)

  /** Two resumes scored 72 and 95 are ranked 95 first, and the chart follows that order. */
  lemma TwoResumesRanked()
    ensures Rank([ResultA, ResultB]) == [ResultB, ResultA]
    ensures ChartData(Rank([ResultA, ResultB])) == [ChartPoint("B.pdf", 95), ChartPoint("A.pdf", 72)]
  {
  }

  /** At the boundary: a fifteen-character name is kept, a sixteen-character one grows to eighteen. */
  lemma SixteenCharacterLabel()
    ensures Label("Senior_Dev_2024") == "Senior_Dev_2024"
    ensures Label("Senior_Dev_2024A") == "Senior_Dev_2024..."
    ensures |Label("Senior_Dev_2024A")| == 18
  {
  }

  /**
   * A successful analysis followed by a failed re-analysis: the failure
   * sets the error status and keeps the ranked results and their closed
   * detail panels.
   */
  method SuccessThenFailure() returns (ranked: seq<AnalysisResult>, status: UploadStatus, panels: seq<Card>)
    ensures ranked == [ResultB, ResultA]
    ensures status == Error
    ensures |panels| == 2 && panels[0].details == None && panels[1].details == None
  {
    var ws := new Workspace();
    ws.HandleFileChange([FileA, FileB]);
    var first := ws.BeginUpload();
    assert first.Dispatched?;
    ws.CompleteSuccess(ArrayBody([ResultA, ResultB]));
    TwoResumesRanked();
    var second := ws.BeginUpload();
    ws.CompleteFailure();
    ranked, status, panels := ws.response, ws.uploadStatus, ws.Cards();
  }

  /** Pressing the upload button with no file selected dispatches nothing and changes nothing. */
  method EmptyBatchRejected() returns (start: UploadStart, status: UploadStatus)
    ensures start == Rejected && status == Idle
  {
    var ws := new Workspace();
    ws.HandleChange(Skills, "Python");
    start := ws.BeginUpload();
    status := ws.uploadStatus;
  }

  /** A second pick replaces the first; nothing accumulates. */
  method ReselectionReplaces() returns (files: seq<ResumeFile>)
    ensures files == [FileB]
  {
    var ws := new Workspace();
    ws.HandleFileChange([FileA, FileB]);
    ws.HandleFileChange([FileB]);
    files := ws.selectedFiles;
  }

  /** Nothing stops a second press while the first request is in flight: both dispatch. */
  method DoubleSubmit() returns (first: UploadStart, second: UploadStart)
    ensures first.Dispatched? && second.Dispatched?
    ensures first == second
  {
    var ws := new Workspace();
    ws.HandleFileChange([FileA]);
    first := ws.BeginUpload();
    second := ws.BeginUpload();
    assert ws.inFlight == 2;
  }

  /**
   * Opening the second result's panel shows its summary and, since the
   * service sent no skills list, an empty one; closing it restores the map.
   */
  method OpenAndCloseDetails() returns (shownCard: Card, other: Card, restored: bool)
    ensures shownCard.details == Some(Details("Full-stack developer", []))
    ensures shownCard.button == "Hide Details"
    ensures other.details == None
    ensures restored
  {
    var ws := new Workspace();
    ws.HandleFileChange([FileA, FileB]);
    var _ := ws.BeginUpload();
    ws.CompleteSuccess(ArrayBody([ResultB, ResultA]));
    TwoResumesRanked();
    assert ws.response == Rank([ResultB, ResultA]);
    assert [ResultB, ResultA][1..] == [ResultA];
    assert Rank([ResultA]) == [ResultA];
    assert ws.response == [ResultB, ResultA];
    var before := ws.showDetails;
    ws.ToggleDetails(0);
    var cards := ws.Cards();
    shownCard, other := cards[0], cards[1];
    ws.ToggleDetails(0);
    ToggleTwice(before, 0);
    restored := ws.showDetails == before;
  }

  /** A wrong password alerts and keeps the login form; the right pair opens the workspace. */
  method LoginFlow() returns (wrong: Login.LoginOutcome, screenAfterWrong: App.Screen, screenAfterRight: App.Screen)
    ensures wrong == Login.AlertInvalid && screenAfterWrong == App.LoginScreen
    ensures screenAfterRight == App.WorkspaceScreen
  {
    var app := new App.Application();
    var form := new Login.LoginForm();
    form.HandleChange(Login.Username, "admin");
    form.HandleChange(Login.Password, "admin");
    wrong := app.ClickLogin(form);
    screenAfterWrong := app.Render();
    form.HandleChange(Login.Password, "admin123");
    var right := app.ClickLogin(form);
    screenAfterRight := app.Render();
  }

  /**
   * On a workspace whose map has one entry per result, pressing the same
   * result's button twice restores the map.
   */
  method ToggleDetailsTwiceRestores(ws: Workspace, i: nat)
    requires ws.VisibilityAligned() && i < |ws.response|
    modifies ws
    ensures ws.showDetails == old(ws.showDetails)
    ensures ws.VisibilityAligned()
  {
    ghost var before := ws.showDetails;
    ws.ToggleDetails(i);
    ws.ToggleDetails(i);
    ToggleTwice(before, i);
  }
}
