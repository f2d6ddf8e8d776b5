// accessibility/FeedbackManager: whether accessibility feedback can be sent from a page, and the
// bug-report intent it starts.

module Feedback {
  import opened Wrappers

  const ActionBugReport: string := "android.intent.action.BUG_REPORT"
  const CategoryTag: string := "category_tag"
  const FeedbackIntentResultCode: int := 0

  datatype Intent = Intent(action: string, package: string, extras: map<string, string>)

  /** An activity, reduced to the activities it has started for a result. */
  class Activity {
    var startedForResult: seq<(Intent, int)>

    constructor ()
      ensures startedForResult == []
    {
      startedForResult := [];
    }
  }

  /** TextUtils.isEmpty: null or "". */
  predicate IsEmpty(s: Option<string>)
  {
    s.None? || |s.value| == 0
  }

  class FeedbackManager {
    /** The weak reference: None once the activity has been collected (or was null). */
    var activity: Option<Activity>
    const reporterPackage: Option<string>
    const categoryTag: Option<string>

    constructor (activity: Option<Activity>, reporterPackage: Option<string>, categoryTag: Option<string>)
      ensures this.activity == activity
      ensures this.reporterPackage == reporterPackage && this.categoryTag == categoryTag
    {
      this.activity := activity;
      this.reporterPackage := reporterPackage;
      this.categoryTag := categoryTag;
    }

    /** isAvailable: the flag, a reporter package, a category and a live activity. */
    predicate IsAvailable(lowVisionFeedbackFlag: bool): (r: bool)
      reads this
      ensures r ==> reporterPackage.Some? && categoryTag.Some? && activity.Some?
      ensures !lowVisionFeedbackFlag || activity.None? ==> !r
      ensures reporterPackage == Some("") || categoryTag == Some("") ==> !r
    {
      lowVisionFeedbackFlag && !IsEmpty(reporterPackage) && !IsEmpty(categoryTag) && activity.Some?
    }

    /** The intent sendFeedback starts. */
    function FeedbackIntent(): (intent: Intent)
      requires !IsEmpty(reporterPackage) && !IsEmpty(categoryTag)
      ensures intent.action == ActionBugReport
      ensures intent.package == reporterPackage.value
      ensures intent.extras == map[CategoryTag := categoryTag.value]
    {
      Intent(ActionBugReport, reporterPackage.value, map[CategoryTag := categoryTag.value])
    }

    /**
     * sendFeedback: false and nothing started when unavailable; otherwise the activity starts
     * the bug-report intent with result code 0, and the call returns true.
     */
    method SendFeedback(lowVisionFeedbackFlag: bool) returns (sent: bool)
      modifies if activity.Some? then {activity.value} else {}
      ensures sent == IsAvailable(lowVisionFeedbackFlag)
      ensures !sent ==> activity.None? || unchanged(activity.value)
      ensures sent ==>
        activity.value.startedForResult == old(activity.value.startedForResult) + [(FeedbackIntent(), FeedbackIntentResultCode)]
    {
      var current := activity;
      if !IsAvailable(lowVisionFeedbackFlag) || current.None? {
        return false;
      }
      var intent := FeedbackIntent();
      current.value.startedForResult := current.value.startedForResult + [(intent, FeedbackIntentResultCode)];
      return true;
    }
  }

  /** Without the flag, no page offers feedback. */
  lemma FlagOffMeansUnavailable(m: FeedbackManager)
    ensures !m.IsAvailable(false)
  {
  }
}
