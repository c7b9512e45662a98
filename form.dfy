/** The Astronomy Picture of the Day form: its labels, picture box, buttons,
    date picker and progress bar, the single-flight guard around its
    background worker, and what it shows when the worker completes.

    Message boxes become a returned `Notice`; the worker becomes a `busy`
    flag set by GetApod and cleared by RunWorkerCompleted, whose outcome is
    a parameter; loading the saved image file is a success or failure given
    as a parameter; parsing and long-date formatting of the response's date
    is a function fixed when the form is created. */
module Apod {
  import opened Credits

  datatype Option<T> = None | Some(value: T)

  /** A calendar date, as handed to the background worker. */
  datatype Date = Date(year: int, month: int, day: int)

  /** The earliest date the date picker offers: the first picture of the day. */
  const MinPictureDate := Date(1995, 6, 16)

  /** The fields of a picture-of-the-day response that the form reads.
      `copyright` is None when the response's Copyright is null. */
  datatype ApodResponse = ApodResponse(
    mediaType: string,
    title: string,
    explanation: string,
    copyright: Option<string>,
    date: string,
    fileSavePath: string)

  /** An image loaded from a saved file. */
  datatype Picture = Picture(path: string)

  /** The worker's result: the (response, error) pair the worker stores, or
      anything else, on which the cast to that pair throws. Either half of
      the pair may be null. */
  datatype WorkerResult =
    | ResponseAndError(response: Option<ApodResponse>, error: Option<string>)
    | NotAPair

  /** How the worker finished: with an exception, or with a result. */
  datatype Completion = Faulted | Finished(result: WorkerResult)

  /** The message box a step shows, if any. */
  datatype Notice =
    | NoNotice
    | PleaseWait                  // the previous request is still running
    | FetchError(message: string) // the fetch reported this error
    | NotAnImage                  // try another date
    | UnexpectedFetchError        // the worker threw
    | UnexpectedData              // handling the worker's result threw

  /** What the labels and the picture box show. */
  datatype Display = Display(
    title: string,
    date: string,
    credits: string,
    description: string,
    picture: Option<Picture>)

  /** The display after ClearForm. */
  const Blank := Display("", "", "", "", None)

  /** The display a step leaves, the notice it shows, and whether it ended
      with an exception that its caller has to catch. */
  datatype Outcome = Outcome(shown: Display, notice: Notice, threw: bool)

  /** LoadImageResponseIntoForm on display `d`. The labels are written one
      after another, so a null Copyright (String.Replace on null) or a date
      that does not parse throws after the labels before it were written. */
  function Loaded(d: Display, r: ApodResponse, longDate: string -> Option<string>,
                  imageLoads: bool): (out: Outcome)
    ensures out.notice == NoNotice
    ensures out.shown.title == r.title
    ensures out.threw <==> r.copyright.None? || longDate(r.date).None?
    ensures r.copyright.Some? ==> out.shown.credits == CreditLine(r.copyright.value)
    ensures !out.threw ==>
      Some(out.shown.date) == longDate(r.date) && out.shown.description == r.explanation
    ensures out.threw ==> out.shown.date == d.date && out.shown.description == d.description
    ensures out.shown.picture ==
      if !out.threw && imageLoads then Some(Picture(r.fileSavePath)) else d.picture
  {
    var titled := d.(title := r.title);
    match r.copyright
    case None => Outcome(titled, NoNotice, true)
    case Some(copyright) =>
      var credited := titled.(credits := CreditLine(copyright));
      match longDate(r.date)
      case None => Outcome(credited, NoNotice, true)
      case Some(formatted) =>
        var described := credited.(date := formatted, description := r.explanation);
        if imageLoads then
          Outcome(described.(picture := Some(Picture(r.fileSavePath))), NoNotice, false)
        else
          Outcome(described, NoNotice, false)
  }

  /** HandleResponse on display `d`: an error is shown as it is; a null
      response throws when its media type is read; only an "image" response
      is loaded into the form. */
  function Handled(d: Display, response: Option<ApodResponse>, error: Option<string>,
                   longDate: string -> Option<string>, imageLoads: bool): (out: Outcome)
    ensures error.Some? ==> out == Outcome(d, FetchError(error.value), false)
    ensures out.shown != d ==> error.None? && response.Some? && response.value.mediaType == "image"
  {
    match error
    case Some(message) => Outcome(d, FetchError(message), false)
    case None =>
      match response
      case None => Outcome(d, NoNotice, true)
      case Some(r) =>
        if r.mediaType == "image" then Loaded(d, r, longDate, imageLoads)
        else Outcome(d, NotAnImage, false)
  }

  /** The response in a completion can be shown in full: a pair with no
      error, holding an image response whose copyright is present and whose
      date parses. */
  predicate Renderable(c: Completion, longDate: string -> Option<string>)
  {
    c.Finished? && c.result.ResponseAndError? &&
    c.result.error.None? && c.result.response.Some? &&
    var r := c.result.response.value;
    r.mediaType == "image" && r.copyright.Some? && longDate(r.date).Some?
  }

  /** apodBackgroundWorker_RunWorkerCompleted on display `d`, without the
      final EnableForm: every exception is caught here. */
  function AfterCompletion(d: Display, c: Completion, longDate: string -> Option<string>,
                           imageLoads: bool): (out: Outcome)
    ensures !out.threw
    ensures out.notice == NoNotice <==> Renderable(c, longDate)
  {
    match c
    case Faulted => Outcome(d, UnexpectedFetchError, false)
    case Finished(NotAPair) => Outcome(d, UnexpectedData, false)
    case Finished(ResponseAndError(response, error)) =>
      var handled := Handled(d, response, error, longDate, imageLoads);
      if handled.threw then handled.(notice := UnexpectedData, threw := false) else handled
  }

  /** A fetch that reports an error leaves the display as it was and shows
      that error. */
  lemma CompletionWithError(d: Display, response: Option<ApodResponse>, message: string,
                            longDate: string -> Option<string>, imageLoads: bool)
    ensures AfterCompletion(d, Finished(ResponseAndError(response, Some(message))), longDate, imageLoads)
         == Outcome(d, FetchError(message), false)
  {
  }

  /** A response whose media type is not exactly "image" leaves the display
      as it was and asks for another date. */
  lemma CompletionWithNonImage(d: Display, r: ApodResponse,
                               longDate: string -> Option<string>, imageLoads: bool)
    requires r.mediaType != "image"
    ensures AfterCompletion(d, Finished(ResponseAndError(Some(r), None)), longDate, imageLoads)
         == Outcome(d, NotAnImage, false)
  {
  }

  /** A renderable response fills every label from the response, without a
      notice; the picture box shows the saved file when it loads and is left
      as it was when it does not. */
  lemma CompletionWithImage(d: Display, c: Completion,
                            longDate: string -> Option<string>, imageLoads: bool)
    requires Renderable(c, longDate)
    ensures var r := c.result.response.value;
      var out := AfterCompletion(d, c, longDate, imageLoads);
      out.notice == NoNotice &&
      out.shown.title == r.title &&
      out.shown.credits == CreditLine(r.copyright.value) &&
      Some(out.shown.date) == longDate(r.date) &&
      out.shown.description == r.explanation &&
      out.shown.picture == (if imageLoads then Some(Picture(r.fileSavePath)) else d.picture)
  {
  }

  /** An image response with a null copyright is caught as unexpected data,
      but only after its title was written. */
  lemma CompletionWithNullCopyright(d: Display, r: ApodResponse,
                                    longDate: string -> Option<string>, imageLoads: bool)
    requires r.mediaType == "image" && r.copyright.None?
    ensures AfterCompletion(d, Finished(ResponseAndError(Some(r), None)), longDate, imageLoads)
         == Outcome(d.(title := r.title), UnexpectedData, false)
  {
  }

  /** Only an image response with no error changes the display; every other
      completion leaves it as it was. */
  lemma CompletionChangesOnlyForImages(d: Display, c: Completion,
                                       longDate: string -> Option<string>, imageLoads: bool)
    ensures AfterCompletion(d, c, longDate, imageLoads).shown != d ==>
      c.Finished? && c.result.ResponseAndError? && c.result.error.None? &&
      c.result.response.Some? && c.result.response.value.mediaType == "image"
  {
  }

  class AstronomyPictureForm {
    /** DateTime.Parse of a response date followed by long-date formatting
        in the form's culture; None where Parse throws. */
    const formatLongDate: string -> Option<string>

    var titleText: string
    var dateText: string
    var creditsText: string
    var descriptionText: string
    var picture: Option<Picture>

    var getForDateEnabled: bool
    var getTodayEnabled: bool
    var datePickerEnabled: bool
    var progressVisible: bool

    /** The background worker's IsBusy. */
    var busy: bool

    /** The dates the worker was started with, in order. */
    ghost var started: seq<Date>
    /** How many times the worker has completed. */
    ghost var completions: nat
    /** The pictures released by ClearForm, in order. */
    ghost var disposed: seq<Picture>

    /** What the labels and the picture box show. */
    function Shown(): Display
      reads this
    {
      Display(titleText, dateText, creditsText, descriptionText, picture)
    }

    /** The buttons and the date picker are enabled exactly when `enable`
        holds, and the progress bar is visible exactly when it does not. */
    predicate ControlsEnabled(enable: bool)
      reads this
    {
      getForDateEnabled == enable && getTodayEnabled == enable &&
      datePickerEnabled == enable && progressVisible == !enable
    }

    /** The form's invariant: the controls are disabled exactly while a
        fetch is in flight, the display stays blank until it completes, and
        at most one fetch is ever in flight. */
    ghost predicate Valid()
      reads this
    {
      ControlsEnabled(!busy) &&
      (busy ==> Shown() == Blank) &&
      |started| == completions + (if busy then 1 else 0)
    }

    /** The form before its first request: blank, enabled, idle. */
    constructor (formatLongDate: string -> Option<string>)
      ensures Valid() && !busy
      ensures Shown() == Blank && ControlsEnabled(true)
      ensures started == [] && completions == 0 && disposed == []
      ensures this.formatLongDate == formatLongDate
    {
      this.formatLongDate := formatLongDate;
      titleText, dateText, creditsText, descriptionText := "", "", "", "";
      picture := None;
      getForDateEnabled, getTodayEnabled, datePickerEnabled := true, true, true;
      progressVisible := false;
      busy := false;
      started, completions, disposed := [], 0, [];
    }

    /** Empties the four labels and releases the shown picture. */
    method ClearForm()
      modifies this`titleText, this`dateText, this`creditsText, this`descriptionText
      modifies this`picture, this`disposed
      ensures Shown() == Blank
      ensures disposed == old(disposed) + (if old(picture).Some? then [old(picture).value] else [])
    {
      dateText := "";
      descriptionText := "";
      titleText := "";
      creditsText := "";
      if picture.Some? {
        disposed := disposed + [picture.value];
      }
      picture := None;
    }

    /** Enables or disables the buttons and the date picker, and hides or
        shows the progress bar accordingly. */
    method EnableForm(enable: bool)
      modifies this`getForDateEnabled, this`getTodayEnabled, this`datePickerEnabled
      modifies this`progressVisible
      ensures ControlsEnabled(enable)
    {
      getForDateEnabled := enable;
      getTodayEnabled := enable;
      datePickerEnabled := enable;
      progressVisible := !enable;
    }

    /** Requests the picture for `date`: always clears and disables the
        form; starts the worker only when it is idle, and otherwise asks the
        user to wait. */
    method GetApod(date: Date) returns (notice: Notice)
      requires Valid()
      modifies this
      ensures Valid() && busy
      ensures Shown() == Blank && ControlsEnabled(false)
      ensures started == if old(busy) then old(started) else old(started) + [date]
      ensures completions == old(completions)
      ensures notice == if old(busy) then PleaseWait else NoNotice
      ensures disposed == old(disposed) + (if old(picture).Some? then [old(picture).value] else [])
    {
      ClearForm();
      EnableForm(false);
      if !busy {
        busy := true;
        started := started + [date];
        notice := NoNotice;
      } else {
        notice := PleaseWait;
      }
    }

    /** Fills the form from an image response; `imageLoads` says whether the
        saved file can be loaded. Returns whether it stopped with an
        exception. */
    method LoadImageResponseIntoForm(r: ApodResponse, imageLoads: bool) returns (threw: bool)
      modifies this`titleText, this`dateText, this`creditsText, this`descriptionText
      modifies this`picture
      ensures Outcome(Shown(), NoNotice, threw) == Loaded(old(Shown()), r, formatLongDate, imageLoads)
    {
      titleText := r.title;
      if r.copyright.None? {
        return true;
      }
      creditsText := CreditLine(r.copyright.value);
      var formatted := formatLongDate(r.date);
      if formatted.None? {
        return true;
      }
      dateText := formatted.value;
      descriptionText := r.explanation;
      if imageLoads {
        picture := Some(Picture(r.fileSavePath));
      }
      threw := false;
    }

    /** Shows the fetch's error, or loads an image response, or asks for
        another date. Returns the notice shown and whether it stopped with
        an exception. */
    method HandleResponse(response: Option<ApodResponse>, error: Option<string>, imageLoads: bool)
      returns (notice: Notice, threw: bool)
      modifies this`titleText, this`dateText, this`creditsText, this`descriptionText
      modifies this`picture
      ensures Outcome(Shown(), notice, threw)
           == Handled(old(Shown()), response, error, formatLongDate, imageLoads)
    {
      if error.Some? {
        return FetchError(error.value), false;
      }
      if response.None? {
        return NoNotice, true;
      }
      if response.value.mediaType == "image" {
        threw := LoadImageResponseIntoForm(response.value, imageLoads);
        notice := NoNotice;
      } else {
        notice, threw := NotAnImage, false;
      }
    }

    /** The worker has finished with `c`. The worker is idle again before
        this runs; every path ends with the form re-enabled. */
    method RunWorkerCompleted(c: Completion, imageLoads: bool) returns (notice: Notice)
      requires Valid() && busy
      modifies this
      ensures Valid() && !busy && ControlsEnabled(true)
      ensures started == old(started) && completions == old(completions) + 1
      ensures disposed == old(disposed)
      ensures Outcome(Shown(), notice, false) == AfterCompletion(Blank, c, formatLongDate, imageLoads)
    {
      busy := false;
      completions := completions + 1;
      match c {
        case Faulted =>
          notice := UnexpectedFetchError;
        case Finished(NotAPair) =>
          notice := UnexpectedData;
        case Finished(ResponseAndError(response, error)) =>
          var threw;
          notice, threw := HandleResponse(response, error, imageLoads);
          if threw {
            notice := UnexpectedData;
          }
      }
      EnableForm(true);
    }
  }

  /** A second request while the first is in flight starts nothing, and the
      completion of the first fills the form from its response. */
  method SingleFlightScenario(formatLongDate: string -> Option<string>,
                              first: Date, second: Date, r: ApodResponse)
    requires r.mediaType == "image" && r.copyright.Some? && formatLongDate(r.date).Some?
  {
    var form := new AstronomyPictureForm(formatLongDate);
    var notice := form.GetApod(first);
    assert notice == NoNotice && form.busy && form.ControlsEnabled(false);
    notice := form.GetApod(second);
    assert notice == PleaseWait && form.started == [first];
    var c := Finished(ResponseAndError(Some(r), None));
    CompletionWithImage(Blank, c, formatLongDate, true);
    notice := form.RunWorkerCompleted(c, true);
    assert notice == NoNotice && !form.busy && form.ControlsEnabled(true);
    assert form.titleText == r.title && form.descriptionText == r.explanation;
    assert form.creditsText == CreditLine(r.copyright.value);
    assert form.picture == Some(Picture(r.fileSavePath));
  }
}
