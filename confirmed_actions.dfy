/**
 * The two confirmation-gated actions of FrontendController, `archive` and
 * `logout`, as the ordered list of effects each performs once the dialog
 * (and, for archive, the remote call) has settled. The answers are inputs;
 * the promises, dialogs, cookies and navigation are not modelled beyond the
 * effect they name.
 */
module ConfirmedActions {

  /** How the user answered the confirmation dialog. */
  datatype Answer = Declined | Confirmed

  /** How the remote `archiveProjects` call settled; it rejects with any value `E`. */
  datatype Settlement<E> = Resolved | Rejected(error: E)

  /** Everything the two actions can do, in the order they do it. */
  datatype Effect<E> =
    | Prompt(title: string, message: string)  // the confirmation dialog
    | ArchiveProjects                          // the remote call on the socket
    | SetPath(path: string)                    // in-app navigation
    | Reload                                   // full reload of the window
    | Report(error: E, message: string)        // the error-reporting service
    | RemoveCredsCookie                        // forget the stored credentials
    | SetTopLocation(url: string)              // navigate the top window away

  const ArchiveTitle := "Archive Projects"
  const ArchiveQuestion := "Are you sure you want to archive all of your projects? If you do this, you will no longer be able to retrieve them through Seashell, but they will be accessible from your student.cs Linux account."
  const ArchiveFailedMessage := "Failed to archive projects."
  const RootPath := "/"

  const LogoutTitle := "Log out of Seashell"
  const LogoutQuestion := "Do you wish to logout?  Any unsaved data will be lost."
  const LogoutUrl := "https://cas.uwaterloo.ca/logout"

  /** Some effect changes where the client is or reloads it. */
  predicate Navigates<E>(effects: seq<Effect<E>>)
  {
    exists i :: 0 <= i < |effects| &&
      (effects[i].SetPath? || effects[i].Reload? || effects[i].SetTopLocation?)
  }

  /** Some effect reports an error. */
  predicate Reports<E>(effects: seq<Effect<E>>)
  {
    exists i :: 0 <= i < |effects| && effects[i].Report?
  }

  /** `first` occurs in `effects` at an earlier position than `second`. */
  predicate Precedes<E(==)>(effects: seq<Effect<E>>, first: Effect<E>, second: Effect<E>)
  {
    exists i, j :: 0 <= i < j < |effects| && effects[i] == first && effects[j] == second
  }

  /**
   * `archive`: ask; on confirmation call `archiveProjects`; when it resolves go
   * to the root path and reload, when it rejects report the error instead.
   */
  function Archive<E(==)>(answer: Answer, settlement: Settlement<E>): (effects: seq<Effect<E>>)
    ensures |effects| > 0 && effects[0] == Prompt(ArchiveTitle, ArchiveQuestion)
    ensures answer == Declined ==> effects == [Prompt(ArchiveTitle, ArchiveQuestion)]
    ensures ArchiveProjects in effects <==> answer == Confirmed
    ensures answer == Confirmed ==> |effects| > 1 && effects[1] == ArchiveProjects
    ensures answer == Confirmed ==> |effects| == if settlement == Resolved then 4 else 3
    ensures Navigates(effects) <==> answer == Confirmed && settlement == Resolved
    ensures Reports(effects) <==> answer == Confirmed && settlement.Rejected?
    ensures forall i :: 0 <= i < |effects| && effects[i].Report? ==>
      settlement.Rejected? && effects[i] == Report(settlement.error, ArchiveFailedMessage)
    ensures Navigates(effects) ==>
      Precedes(effects, ArchiveProjects, SetPath(RootPath)) &&
      Precedes(effects, SetPath(RootPath), Reload)
  {
    var prompt := Prompt(ArchiveTitle, ArchiveQuestion);
    match answer
    case Declined => [prompt]
    case Confirmed =>
      match settlement
      case Resolved =>
        var effects := [prompt, ArchiveProjects, SetPath(RootPath), Reload];
        assert effects[1] == ArchiveProjects && effects[2] == SetPath(RootPath) && effects[3] == Reload;
        effects
      case Rejected(err) =>
        var effects := [prompt, ArchiveProjects, Report(err, ArchiveFailedMessage)];
        assert effects[2].Report?;
        effects
  }

  /**
   * `logout`: ask; on confirmation forget the credentials cookie, then send
   * the top window to the central logout page. There is no failure path, so
   * `E` is never used here: it only lets both actions share one `Effect` type.
   */
  function Logout<E(==)>(answer: Answer): (effects: seq<Effect<E>>)
    ensures |effects| > 0 && effects[0] == Prompt(LogoutTitle, LogoutQuestion)
    ensures answer == Declined ==> effects == [Prompt(LogoutTitle, LogoutQuestion)]
    ensures answer == Confirmed ==> |effects| == 3
    ensures RemoveCredsCookie in effects <==> answer == Confirmed
    ensures Navigates(effects) <==> answer == Confirmed
    ensures !Reports(effects)
    ensures answer == Confirmed ==> Precedes(effects, RemoveCredsCookie, SetTopLocation(LogoutUrl))
    ensures forall i :: 0 <= i < |effects| && effects[i].SetTopLocation? ==> effects[i].url == LogoutUrl
  {
    var prompt := Prompt(LogoutTitle, LogoutQuestion);
    match answer
    case Declined => [prompt]
    case Confirmed =>
      var effects := [prompt, RemoveCredsCookie, SetTopLocation(LogoutUrl)];
      assert effects[1] == RemoveCredsCookie && effects[2] == SetTopLocation(LogoutUrl);
      effects
  }

  /** The archive outcomes effect by effect. */
  lemma ArchiveOutcomes<E>(err: E)
    ensures Archive<E>(Declined, Resolved) == [Prompt(ArchiveTitle, ArchiveQuestion)]
    ensures Archive<E>(Declined, Rejected(err)) == [Prompt(ArchiveTitle, ArchiveQuestion)]
    ensures Archive<E>(Confirmed, Rejected(err)) ==
      [Prompt(ArchiveTitle, ArchiveQuestion), ArchiveProjects, Report(err, ArchiveFailedMessage)]
    ensures Archive<E>(Confirmed, Resolved) ==
      [Prompt(ArchiveTitle, ArchiveQuestion), ArchiveProjects, SetPath(RootPath), Reload]
  {
  }

  /** The logout outcomes effect by effect. */
  lemma LogoutOutcomes<E>()
    ensures Logout<E>(Declined) == [Prompt(LogoutTitle, LogoutQuestion)]
    ensures Logout<E>(Confirmed) ==
      [Prompt(LogoutTitle, LogoutQuestion), RemoveCredsCookie, SetTopLocation(LogoutUrl)]
  {
  }
}
