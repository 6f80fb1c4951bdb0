/**
 * The interview set-up page: four single-choice selections (CV, job
 * description, interview type, interview language), the microphone
 * permission check and the Start button that navigates to the live session
 * only once the microphone is known to be granted.
 *
 * The awaited getUserMedia call is collapsed into the moment it settles: the
 * `accessGranted` argument says whether it resolved (granted) or threw (denied).
 */
module StartInterview {
  import opened Wrappers
  import Language

  datatype MicPermission = Unknown | Granted | Denied

  const CvIds: seq<string> := ["cv-1", "cv-2"]
  const JdIds: seq<string> := ["jd-1", "jd-2"]
  const InterviewTypeIds: seq<string> := ["behavioral", "technical", "mixed"]
  const InterviewLanguageIds: seq<string> := ["en", "he", "ar", "multi"]

  const LiveRoute: string := "/interview/live"

  /** Every application language is offered as an interview language, so the initial choice is a listed one. */
  lemma AppLanguagesOffered(l: Language.Lang)
    ensures Language.Code(l) in InterviewLanguageIds
  {
  }

  /**
   * "multi" is offered for the interview but is not an application language:
   * the stored-preference parser rejects it.
   */
  lemma MultiIsInterviewOnly()
    ensures "multi" in InterviewLanguageIds
    ensures Language.ParseSaved(Some("multi")) == None
    ensures forall l: Language.Lang :: Language.Code(l) != "multi"
  {
  }

  class InterviewSetup {
    var selectedCv: string
    var selectedJd: string
    var interviewType: string
    var interviewLanguage: string
    var micPermission: MicPermission
    var navigatedTo: Option<string>

    /** Every selection is one of the options the page lists. */
    ghost predicate Valid()
      reads this
    {
      && selectedCv in CvIds && selectedJd in JdIds
      && interviewType in InterviewTypeIds && interviewLanguage in InterviewLanguageIds
    }

    /** The page mounts with the first CV and job description, a mixed interview in the app's current language. */
    constructor (appLanguage: Language.Lang)
      ensures Valid()
      ensures selectedCv == "cv-1" && selectedJd == "jd-1" && interviewType == "mixed"
      ensures interviewLanguage == Language.Code(appLanguage)
      ensures micPermission == Unknown && navigatedTo == None
    {
      selectedCv := "cv-1";
      selectedJd := "jd-1";
      interviewType := "mixed";
      interviewLanguage := Language.Code(appLanguage);
      micPermission := Unknown;
      navigatedTo := None;
    }

    /** The Start button is disabled only after access was denied. */
    predicate StartEnabled()
      reads this
    {
      micPermission != Denied
    }

    /** The Check Access button shows until access is granted. */
    predicate CheckAccessShown()
      reads this
    {
      micPermission != Granted
    }

    method SelectCv(id: string)
      requires Valid() && id in CvIds
      modifies this
      ensures Valid()
      ensures selectedCv == id
      ensures selectedJd == old(selectedJd) && interviewType == old(interviewType)
      ensures interviewLanguage == old(interviewLanguage)
      ensures micPermission == old(micPermission) && navigatedTo == old(navigatedTo)
    {
      selectedCv := id;
    }

    method SelectJd(id: string)
      requires Valid() && id in JdIds
      modifies this
      ensures Valid()
      ensures selectedJd == id
      ensures selectedCv == old(selectedCv) && interviewType == old(interviewType)
      ensures interviewLanguage == old(interviewLanguage)
      ensures micPermission == old(micPermission) && navigatedTo == old(navigatedTo)
    {
      selectedJd := id;
    }

    method SelectInterviewType(id: string)
      requires Valid() && id in InterviewTypeIds
      modifies this
      ensures Valid()
      ensures interviewType == id
      ensures selectedCv == old(selectedCv) && selectedJd == old(selectedJd)
      ensures interviewLanguage == old(interviewLanguage)
      ensures micPermission == old(micPermission) && navigatedTo == old(navigatedTo)
    {
      interviewType := id;
    }

    method SelectInterviewLanguage(id: string)
      requires Valid() && id in InterviewLanguageIds
      modifies this
      ensures Valid()
      ensures interviewLanguage == id
      ensures selectedCv == old(selectedCv) && selectedJd == old(selectedJd)
      ensures interviewType == old(interviewType)
      ensures micPermission == old(micPermission) && navigatedTo == old(navigatedTo)
    {
      interviewLanguage := id;
    }

    /** checkMicPermission, settled: granted if the request resolved, denied if it threw. */
    method CheckMicPermission(accessGranted: bool)
      requires Valid()
      modifies this
      ensures Valid()
      ensures micPermission == if accessGranted then Granted else Denied
      ensures selectedCv == old(selectedCv) && selectedJd == old(selectedJd)
      ensures interviewType == old(interviewType) && interviewLanguage == old(interviewLanguage)
      ensures navigatedTo == old(navigatedTo)
    {
      if accessGranted {
        micPermission := Granted;
      } else {
        micPermission := Denied;
      }
    }

    /**
     * handleStartInterview: with access granted it navigates to the live
     * session; otherwise it only runs the permission check, so the click that
     * obtains access does not itself start the interview.
     */
    method HandleStartInterview(accessGranted: bool)
      requires Valid()
      modifies this
      ensures Valid()
      ensures old(micPermission) == Granted ==> navigatedTo == Some(LiveRoute) && micPermission == Granted
      ensures old(micPermission) != Granted ==>
        navigatedTo == old(navigatedTo) && micPermission == (if accessGranted then Granted else Denied)
      ensures selectedCv == old(selectedCv) && selectedJd == old(selectedJd)
      ensures interviewType == old(interviewType) && interviewLanguage == old(interviewLanguage)
    {
      if micPermission != Granted {
        CheckMicPermission(accessGranted);
        return;
      }
      navigatedTo := Some(LiveRoute);
    }
  }

  /**
   * From a fresh page with the microphone available, the first Start click
   * only obtains access and the second one navigates, keeping the selections.
   */
  method StartTakesTwoClicks(appLanguage: Language.Lang) returns (afterFirst: Option<string>, afterSecond: Option<string>, language: string)
    ensures afterFirst == None && afterSecond == Some(LiveRoute)
    ensures language == Language.Code(appLanguage)
  {
    var page := new InterviewSetup(appLanguage);
    page.HandleStartInterview(true);
    afterFirst := page.navigatedTo;
    page.HandleStartInterview(true);
    afterSecond := page.navigatedTo;
    language := page.interviewLanguage;
  }

  /**
   * After a denial the Start button is disabled and Check Access is offered as
   * the way out; once it succeeds the button disappears and Start navigates.
   */
  method RecoverFromDenial(appLanguage: Language.Lang)
    returns (disabledAfterDenial: bool, offeredAfterDenial: bool, offeredAfterGrant: bool, route: Option<string>)
    ensures disabledAfterDenial && offeredAfterDenial
    ensures !offeredAfterGrant && route == Some(LiveRoute)
  {
    var page := new InterviewSetup(appLanguage);
    page.HandleStartInterview(false);
    disabledAfterDenial := !page.StartEnabled();
    offeredAfterDenial := page.CheckAccessShown();
    page.CheckMicPermission(true);
    offeredAfterGrant := page.CheckAccessShown();
    page.HandleStartInterview(true);
    route := page.navigatedTo;
  }
}
