/** The contact page: the theme toggle, the FAQ accordion, and the contact
    form's checks, its request and the handling of the server's reply. */
module Contact {
  import opened TextUtil
  import MainOptimized

  // ---------------------------------------------------------------------
  // Theme

  /** `(localStorage.getItem('theme') || 'light') === 'dark'`. */
  function InitialDark(saved: Option<string>): (dark: bool)
    ensures dark <==> saved == Some("dark")
  {
    var theme := if saved.Some? && saved.value != "" then saved.value else "light";
    theme == "dark"
  }

  // ---------------------------------------------------------------------
  // FAQ accordion

  /** No two items are open at once. */
  predicate AtMostOneOpen(open: seq<bool>) {
    forall i, j :: 0 <= i < |open| && 0 <= j < |open| && open[i] && open[j] ==> i == j
  }

  /** The items' open flags after a click on item `k`: the clicked item
      alone if it was closed, none if it was open. */
  function AfterClick(open: seq<bool>, k: int): (r: seq<bool>)
    requires 0 <= k < |open|
    ensures |r| == |open|
  {
    seq(|open|, i => !open[k] && i == k)
  }

  /** Whatever the state before, a click leaves at most one item open; the
      clicked item is open afterwards iff it was closed, and no other is. */
  lemma ClickLeavesOneOpen(open: seq<bool>, k: int)
    requires 0 <= k < |open|
    ensures AtMostOneOpen(AfterClick(open, k))
    ensures AfterClick(open, k)[k] <==> !open[k]
    ensures forall i :: 0 <= i < |open| && i != k ==> !AfterClick(open, k)[i]
  {
  }

  /** Opening a closed question and clicking it again closes everything. */
  lemma ClickTwiceCloses(open: seq<bool>, k: int)
    requires 0 <= k < |open| && !open[k]
    ensures forall i :: 0 <= i < |open| ==> !AfterClick(AfterClick(open, k), k)[i]
  {
  }

  /** The `.faq-item` elements: whether each is `active`, and its question's
      `aria-expanded`. */
  class Faq {
    var open: seq<bool>
    var expanded: seq<bool>

    predicate Valid()
      reads this
    {
      |expanded| == |open|
    }

    constructor (n: nat)
      ensures Valid() && |open| == n
      ensures forall i :: 0 <= i < n ==> !open[i] && !expanded[i]
    {
      open := seq(n, _ => false);
      expanded := seq(n, _ => false);
    }

    /** The question click handler: close every item, then open the
        clicked one if it was not open. */
    method Click(k: int)
      requires Valid() && 0 <= k < |open|
      modifies this
      ensures Valid()
      ensures open == AfterClick(old(open), k)
      ensures expanded == open
      ensures AtMostOneOpen(open)
    {
      var wasOpen := open[k];
      var i := 0;
      while i < |open|
        invariant 0 <= i <= |open| && Valid() && |open| == |old(open)|
        invariant forall j :: 0 <= j < i ==> !open[j] && !expanded[j]
        invariant forall j :: i <= j < |open| ==> open[j] == old(open)[j]
      {
        open := open[i := false];
        expanded := expanded[i := false];
        i := i + 1;
      }
      if !wasOpen {
        open := open[k := true];
        expanded := expanded[k := true];
      }
      ClickLeavesOneOpen(old(open), k);
    }
  }

  // ---------------------------------------------------------------------
  // Contact form

  const MISSING_MSG := "Please fill in all required fields."
  const EMAIL_MSG := "Please enter a valid email address."
  const SUCCESS_MSG := "Thank you! Your message has been sent successfully. We will get back to you soon."
  const NETWORK_MSG := "There was a network error. Please check your connection and try again."

  /** The five inputs' values; what the form posts is the same five,
      trimmed. */
  datatype FormData = FormData(name: string, email: string, phone: string, subject: string, message: string)

  const BLANK := FormData("", "", "", "", "")

  function Collect(f: FormData): (d: FormData)
    ensures Complete(d) <==> !AllWs(f.name) && !AllWs(f.email) && !AllWs(f.phone) &&
                             !AllWs(f.subject) && !AllWs(f.message)
  {
    TrimEmptyIffAllWs(f.name);
    TrimEmptyIffAllWs(f.email);
    TrimEmptyIffAllWs(f.phone);
    TrimEmptyIffAllWs(f.subject);
    TrimEmptyIffAllWs(f.message);
    FormData(Trim(f.name), Trim(f.email), Trim(f.phone), Trim(f.subject), Trim(f.message))
  }

  predicate Complete(d: FormData) {
    d.name != "" && d.email != "" && d.phone != "" && d.subject != "" && d.message != ""
  }

  /** What the request produced: a rejected fetch, or a response with its
      `ok` flag and body text. */
  datatype Reply = NetworkFailure | Response(ok: bool, body: string)

  /** The `formMessage` type: the element's class is `form-message success`
      or `form-message error`. */
  datatype NoticeKind = Success | Failure

  datatype Notice = Notice(text: string, kind: NoticeKind)

  /** Whether the submit handler sends a request for these values. */
  predicate Sends(d: FormData) {
    Complete(d) && MainOptimized.IsValidEmail(d.email)
  }

  /** The notice for a reply to a sent request: success only for an ok
      response whose trimmed body is `success`; the body itself is shown
      for any other ok response. */
  function ReplyNotice(reply: Reply): (n: Notice)
    ensures n.kind == Success <==> reply.Response? && reply.ok && Trim(reply.body) == "success"
    ensures n.kind == Success ==> n.text == SUCCESS_MSG
    ensures reply.NetworkFailure? || !reply.ok ==> n.text == NETWORK_MSG
    ensures reply.Response? && reply.ok && Trim(reply.body) != "success" ==>
      n.text == "Error: " + reply.body
  {
    if reply.NetworkFailure? || !reply.ok then Notice(NETWORK_MSG, Failure)
    else if Trim(reply.body) == "success" then Notice(SUCCESS_MSG, Success)
    else Notice("Error: " + reply.body, Failure)
  }

  /** The notice the whole handler ends with: the emptiness check first,
      then the email check, then the reply. */
  function SubmitNotice(d: FormData, reply: Reply): (n: Notice)
    ensures !Complete(d) ==> n == Notice(MISSING_MSG, Failure)
    ensures Complete(d) && !MainOptimized.IsValidEmail(d.email) ==> n == Notice(EMAIL_MSG, Failure)
    ensures Sends(d) ==> n == ReplyNotice(reply)
  {
    if !Complete(d) then Notice(MISSING_MSG, Failure)
    else if !MainOptimized.IsValidEmail(d.email) then Notice(EMAIL_MSG, Failure)
    else ReplyNotice(reply)
  }

  /** Only a sent request can end in success. */
  lemma SuccessOnlyWhenSent(d: FormData, reply: Reply)
    ensures SubmitNotice(d, reply).kind == Success ==> Sends(d)
  {
  }

  /** Blanks around the typed values never change what is checked or sent. */
  lemma CollectIgnoresPadding(f: FormData, a: string, b: string)
    requires AllWs(a) && AllWs(b)
    ensures Collect(FormData(a + f.name + b, a + f.email + b, a + f.phone + b,
                             a + f.subject + b, a + f.message + b)) == Collect(f)
  {
    TrimIgnoresPadding(a, f.name, b);
    TrimIgnoresPadding(a, f.email, b);
    TrimIgnoresPadding(a, f.phone, b);
    TrimIgnoresPadding(a, f.subject, b);
    TrimIgnoresPadding(a, f.message, b);
  }

  /** The page's theme state, the form's inputs and submit button, and the
      `formMessage` element. */
  class ContactPage {
    var store: map<string, string>
    var bodyDark: bool
    /** The toggle shows the sun icon. */
    var sunIcon: bool

    var inputs: FormData
    var buttonText: string
    var buttonDisabled: bool
    /** The displayed notice; None while `formMessage` is hidden. */
    var notice: Option<Notice>
    /** How many five-second hides of the notice have been scheduled. */
    var hidesScheduled: nat
    /** Every request body posted so far. */
    var posted: seq<FormData>

    /** The DOMContentLoaded theme setup. */
    constructor (store0: map<string, string>, buttonLabel: string)
      ensures store == store0
      ensures bodyDark == InitialDark(GetItem(store0, "theme")) && sunIcon == bodyDark
      ensures inputs == BLANK && buttonText == buttonLabel && !buttonDisabled
      ensures notice == None && hidesScheduled == 0 && posted == []
    {
      store := store0;
      var dark := InitialDark(GetItem(store0, "theme"));
      bodyDark, sunIcon := dark, dark;
      inputs, buttonText, buttonDisabled := BLANK, buttonLabel, false;
      notice, hidesScheduled, posted := None, 0, [];
    }

    /** The theme toggle: flip dark mode, then store and show the new state. */
    method ToggleTheme()
      modifies this
      ensures bodyDark == !old(bodyDark) && sunIcon == bodyDark
      ensures store == old(store)["theme" := if bodyDark then "dark" else "light"]
      ensures inputs == old(inputs) && notice == old(notice) && posted == old(posted)
      ensures buttonText == old(buttonText) && buttonDisabled == old(buttonDisabled)
      ensures hidesScheduled == old(hidesScheduled)
    {
      bodyDark := !bodyDark;
      sunIcon := bodyDark;
      store := store["theme" := if bodyDark then "dark" else "light"];
    }

    /** `showFormMessage`: only a success notice schedules its own hiding. */
    method ShowNotice(n: Notice)
      modifies this
      ensures notice == Some(n)
      ensures hidesScheduled == old(hidesScheduled) + (if n.kind == Success then 1 else 0)
      ensures store == old(store) && bodyDark == old(bodyDark) && sunIcon == old(sunIcon)
      ensures inputs == old(inputs) && posted == old(posted)
      ensures buttonText == old(buttonText) && buttonDisabled == old(buttonDisabled)
    {
      notice := Some(n);
      if n.kind == Success {
        hidesScheduled := hidesScheduled + 1;
      }
    }

    /** A scheduled five-second hide fires: `formMessage` is hidden, whatever
        notice it shows by then, since the timer is never cancelled. */
    method HideTimerFires()
      requires hidesScheduled > 0
      modifies this
      ensures notice == None && hidesScheduled == old(hidesScheduled) - 1
      ensures store == old(store) && bodyDark == old(bodyDark) && sunIcon == old(sunIcon)
      ensures inputs == old(inputs) && posted == old(posted)
      ensures buttonText == old(buttonText) && buttonDisabled == old(buttonDisabled)
    {
      notice := None;
      hidesScheduled := hidesScheduled - 1;
    }

    /** The end of the handler: post if the checks passed, show the
        notice, and clear the form on success. */
    method Settle(d: FormData, n: Notice)
      modifies this
      ensures notice == Some(n) && posted == old(posted) + (if Sends(d) then [d] else [])
      ensures hidesScheduled == old(hidesScheduled) + (if n.kind == Success then 1 else 0)
      ensures inputs == (if n.kind == Success then BLANK else old(inputs))
      ensures buttonText == old(buttonText) && buttonDisabled == old(buttonDisabled)
      ensures store == old(store) && bodyDark == old(bodyDark) && sunIcon == old(sunIcon)
    {
      if Sends(d) {
        posted := posted + [d];
      }
      ShowNotice(n);
      if n.kind == Success {
        inputs := BLANK;
      }
    }

    /** The submit handler, with the request's `reply`. The button is
        restored on every path; a request is posted only for complete
        values with a valid email; the form is cleared only on success. */
    method Submit(reply: Reply)
      modifies this
      ensures var d := Collect(old(inputs));
        var n := SubmitNotice(d, reply);
        notice == Some(n) &&
        posted == old(posted) + (if Sends(d) then [d] else []) &&
        hidesScheduled == old(hidesScheduled) + (if n.kind == Success then 1 else 0) &&
        inputs == (if n.kind == Success then BLANK else old(inputs))
      ensures buttonText == old(buttonText) && !buttonDisabled
      ensures store == old(store) && bodyDark == old(bodyDark) && sunIcon == old(sunIcon)
    {
      notice := None;
      var originalText := buttonText;
      buttonText := "Sending...";
      buttonDisabled := true;
      var d := Collect(inputs);
      var n := SubmitNotice(d, reply);
      Settle(d, n);
      buttonText := originalText;
      buttonDisabled := false;
    }
  }
}
