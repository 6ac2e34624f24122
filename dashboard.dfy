/** The dashboard (`app/dashboard/page.tsx`): the moon-phase widget and the submit handler that
    posts a dream to the interpretation endpoint. */
module Dashboard {
  import opened Common

  // ---------------------------------------------------------------------------------------------
  // Moon-phase widget

  /** The widget shows "ข้างขึ้น" (waxing) or "ข้างแรม" (waning), then the age in days. */
  datatype Phase = Waxing | Waning

  /** `day % 30 < 15`, where `day` is the day of the month (1 to 31). */
  function PhaseOf(day: nat): (p: Phase)
    ensures 1 <= day <= 31 ==> (p == Waxing <==> day <= 14 || day >= 30)
  {
    if day % 30 < 15 then Waxing else Waning
  }

  /** `day % 15 || 15`: a zero remainder is replaced by 15. */
  function MoonAge(day: nat): (a: nat)
    ensures 1 <= a <= 15
    ensures a % 15 == day % 15
    ensures a == 15 <==> day % 15 == 0
  {
    if day % 15 != 0 then day % 15 else 15
  }

  // ---------------------------------------------------------------------------------------------
  // Submitting a dream

  const QuotaFallback: string := "โควต้าเต็มแล้ว กรุณารอสักครู่"
  const QuotaPrefix: string := "⏳ "
  const ErrorPrefix: string := "เกิดข้อผิดพลาด: "

  /** The fields of the JSON body the page reads. */
  datatype Body = Body(error: Option<string>, analysis: Option<string>, luckyNumbers: Option<string>)

  /** What `fetch` and `response.json()` produce: a status and a body, or a rejection with
      its message. */
  datatype Reply = Answered(status: int, body: Body) | Threw(message: string)

  /** JavaScript truthiness of an optional string: present and not empty. */
  predicate Truthy(s: Option<string>) {
    s.Some? && s.value != ""
  }

  /** `disabled={loading || !dream.trim()}` */
  function SubmitDisabled(loading: bool, dream: string): (d: bool)
    ensures d <==> loading || IsBlank(dream)
  {
    TrimEmptyIffBlank(dream);
    loading || Trim(dream) == []
  }

  class DashboardPage {
    var dream: string
    var result: Option<Body>
    var loading: bool
    var toast: Option<Toast>
    /** The request bodies posted to the interpretation endpoint, oldest first. */
    var requests: seq<string>

    constructor ()
      ensures dream == "" && result.None? && !loading && toast.None? && requests == []
    {
      dream, result, loading, toast, requests := "", None, false, None, [];
    }

    /** `handleSubmit`: a blank dream sends nothing; otherwise one request is posted and
        `loading` is false on every way out. A 429 reply shows the quota message, a body with
        an error field or a rejection shows the error, and only an answer without an error
        becomes the result. */
    method HandleSubmit(reply: Reply)
      modifies this
      ensures dream == old(dream)
      ensures IsBlank(dream) ==>
        result == old(result) && loading == old(loading) && toast == old(toast) && requests == old(requests)
      ensures !IsBlank(dream) ==> !loading && requests == old(requests) + [dream]
      ensures !IsBlank(dream) && reply.Answered? && reply.status == 429 ==>
        && result.None?
        && toast == Some(Failure(QuotaPrefix + if Truthy(reply.body.error) then reply.body.error.value else QuotaFallback))
      ensures !IsBlank(dream) && reply.Answered? && reply.status != 429 && Truthy(reply.body.error) ==>
        result.None? && toast == Some(Failure(ErrorPrefix + reply.body.error.value))
      ensures !IsBlank(dream) && reply.Answered? && reply.status != 429 && !Truthy(reply.body.error) ==>
        result == Some(reply.body) && toast == old(toast)
      ensures !IsBlank(dream) && reply.Threw? ==>
        result.None? && toast == Some(Failure(ErrorPrefix + reply.message))
    {
      TrimEmptyIffBlank(dream);
      if Trim(dream) == [] {
        return;
      }
      loading := true;
      result := None;
      requests := requests + [dream];
      match reply {
        case Threw(message) =>
          toast := Some(Failure(ErrorPrefix + message));
        case Answered(status, body) =>
          if status == 429 {
            var shown := if Truthy(body.error) then body.error.value else QuotaFallback;
            toast := Some(Failure(QuotaPrefix + shown));
          } else if Truthy(body.error) {
            toast := Some(Failure(ErrorPrefix + body.error.value));
          } else {
            result := Some(body);
          }
      }
      loading := false;
    }
  }
}
