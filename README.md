# Astronomy Picture of the Day form — a Dafny model

The application is a desktop form that fetches NASA's Astronomy Picture of the
Day for a date and shows its title, long-form date, credit line, explanation
and image. This project models the form's controller logic from
`APOD/AstronomyPictureForm.cs`:

- `credits.dfy`, module `Credits`: the credit-line rule of
  `LoadImageResponseIntoForm` as a pure function, with its own
  character replacement, ASCII lower-casing and substring search, and lemmas
  on what each branch shows.
- `form.dfy`, module `Apod`: the form as a class whose fields stand for the
  four labels, the picture box, the two buttons, the date picker, the
  progress bar and the background worker's `IsBusy`. The methods `ClearForm`,
  `EnableForm`, `GetApod`, `HandleResponse`, `LoadImageResponseIntoForm` and
  `RunWorkerCompleted` assign those fields as the form's methods do. Each is
  proved against a pure function of the old display (`Loaded`, `Handled`,
  `AfterCompletion`), and lemmas state what every completion path shows.

The class invariant `Valid()` states the single-flight design:
- the controls are disabled exactly while a fetch is in flight;
- the display stays blank until that fetch completes;
- the number of worker starts is the number of completions, plus one while
  busy, so at most one fetch is ever in flight.

Modelling choices:
- A message box is a returned `Notice`. A fetch error keeps its message.
  The other notices are kinds only.
- The worker's result is a parameter of `RunWorkerCompleted`. It is one of
  three outcomes: the worker threw (`Faulted`), a (response, error) pair
  whose halves may each be null, or a value the cast to that pair rejects
  (`NotAPair`).
- Whether `Image.FromFile` succeeds is the parameter `imageLoads`.
- `DateTime.Parse` followed by `{date:D}` is the constant `formatLongDate`,
  given to the constructor. It is None where parsing throws.
- Exceptions inside `LoadImageResponseIntoForm` stop it part-way. Labels
  written before the failing step stay written. A null `Copyright` fails at
  `Replace`, after the title was set. A date that does not parse fails after
  the title and the credits were set. `RunWorkerCompleted` catches both and
  shows the "unexpected data" notice. The same happens when the response
  itself is null.
- Buttons are disabled while busy. So the "please wait" branch of `GetAPOD`
  cannot be reached through the two buttons. It is still modelled, since
  the method itself handles it.

## Model

| member | source | states |
|---|---|---|
| `Credits.CreditLine` | APOD/AstronomyPictureForm.cs:83-93 | a newline survives in the credits label only when the label is the copyright verbatim; the label is never shorter than the copyright |
| `Credits.ReplaceRemoves` | APOD/AstronomyPictureForm.cs:83 | replacing newlines by spaces leaves no newline, and leaves newline-free text unchanged |
| `Credits.LowerChar` | APOD/AstronomyPictureForm.cs:84 | lower-casing leaves no upper-case ASCII letter, maps each upper-case letter to its lower-case partner, and keeps every other character |
| `Credits.ContainsIff` | APOD/AstronomyPictureForm.cs:86 | the left-to-right search finds the phrase exactly when it occurs at some index |
| `Credits.CreditLineBranches` | APOD/AstronomyPictureForm.cs:83-93 | the label equals the copyright exactly when the folded, lower-cased copyright contains "image credit"; otherwise it is "Image credit: " followed by the newline-folded copyright and holds no newline |
| `Credits.CreditLineMentionsCredit` | APOD/AstronomyPictureForm.cs:83-93 | for every copyright, the label text itself passes the same "image credit" test |
| `Credits.CreditLineIdempotent` | APOD/AstronomyPictureForm.cs:83-93 | applying the rule to its own output changes nothing |
| `Credits.SplitPhraseShownVerbatim` | APOD/AstronomyPictureForm.cs:83-89 | "image\ncredit" passes the test and is shown verbatim, yet the shown text does not contain "image credit" |
| `Credits.CreditLineExamples` | APOD/AstronomyPictureForm.cs:83-93 | "Jane Doe" becomes "Image credit: Jane Doe"; "Image Credit" is kept as it is |
| `Apod.Loaded` | APOD/AstronomyPictureForm.cs:79-110 | the title is always written; the step throws exactly when the copyright is null or the date does not parse; the credits follow the rule whenever a copyright is present; on success date and description come from the response; the picture is the saved file only on success with a loadable file, otherwise it is unchanged |
| `Apod.Handled` | APOD/AstronomyPictureForm.cs:59-77 | a non-null error is shown and the display is untouched; the display changes only for an error-free "image" response |
| `Apod.AfterCompletion` | APOD/AstronomyPictureForm.cs:150-173 | no completion path lets an exception escape; no notice is shown exactly when the worker returned an error-free image response with a copyright and a parseable date |
| `Apod.CompletionWithError` | APOD/AstronomyPictureForm.cs:61-65 | a completion carrying an error shows that error and leaves the display as it was |
| `Apod.CompletionWithNonImage` | APOD/AstronomyPictureForm.cs:67-74 | a response whose media type is not exactly "image" leaves the display as it was and shows the "try another date" notice |
| `Apod.CompletionWithImage` | APOD/AstronomyPictureForm.cs:79-110 | a renderable response sets title, credits, long date and description from the response with no notice; the picture is the saved file if it loads, and unchanged if it fails to load |
| `Apod.CompletionWithNullCopyright` | APOD/AstronomyPictureForm.cs:79-93 | an image response with a null copyright writes only the title and ends in the "unexpected data" notice |
| `Apod.CompletionChangesOnlyForImages` | APOD/AstronomyPictureForm.cs:59-77 | every completion other than an error-free image response leaves the display unchanged |
| `Apod.AstronomyPictureForm.constructor` | APOD/AstronomyPictureForm.cs:11-14 | the form starts blank, enabled and idle, with no worker start recorded |
| `Apod.AstronomyPictureForm.ClearForm` | APOD/AstronomyPictureForm.cs:113-122 | all four labels become empty, the picture box becomes empty, and the picture it held is released; nothing else changes |
| `Apod.AstronomyPictureForm.EnableForm` | APOD/AstronomyPictureForm.cs:125-132 | both buttons and the date picker are enabled exactly when asked, the progress bar is visible exactly when not; nothing else changes |
| `Apod.AstronomyPictureForm.GetApod` | APOD/AstronomyPictureForm.cs:42-56 | always leaves the form blank and disabled and the worker busy; an idle worker is started once with the date; a busy one is not started again and the "please wait" notice is shown; the invariant is kept |
| `Apod.AstronomyPictureForm.LoadImageResponseIntoForm` | APOD/AstronomyPictureForm.cs:79-110 | the new display and the exception flag are those of `Loaded` on the old display |
| `Apod.AstronomyPictureForm.HandleResponse` | APOD/AstronomyPictureForm.cs:59-77 | the new display, notice and exception flag are those of `Handled` on the old display |
| `Apod.AstronomyPictureForm.RunWorkerCompleted` | APOD/AstronomyPictureForm.cs:150-173 | on every path the worker is idle, the form re-enabled and the progress bar hidden; one completion is counted; the display and notice are those of `AfterCompletion` on the blank display; the invariant is kept |

## Left out

- Message box texts and captions, and all `Debug.WriteLine` logging: UI and
  logging side effects. Notices are kept as kinds.
- `apodBackgroundWorker_DoWork`, `RunWorkerAsync` and the thread they run on:
  the worker is a busy flag plus a completion whose outcome is a parameter.
  The `DoWork` branch for a non-date argument throws, which arrives as the
  `Faulted` completion.
- `APOD.FetchAPOD`, the HTTP and disk collaborator: it is not part of this
  model, and its response is an input.
- `DateTime.Parse` and culture-dependent `{date:D}` formatting: these are the
  opaque function `formatLongDate`.
- `Image.FromFile`: its success is the parameter `imageLoads`. `Dispose` is
  recorded only as the ghost list of released pictures. GDI resources are not
  modelled.
- `Form1_Load` and the two click handlers. `Form1_Load` sets the picker
  bounds from `DateTime.Today` and fetches today's picture at startup. The
  handlers only pass a date to `GetApod`. Only the minimum date 1995-06-16
  is kept, as `MinPictureDate`.
- The designer-generated initial state of the controls is not part of this
  model. The constructor assumes a blank, enabled, idle form.
- Null strings are modelled only where they change control flow: the
  copyright, the response and the error. A null media type takes the same
  path as any string other than "image".
- Credits.Lower: lower-cases ASCII letters only, while String.ToLower is
  culture-sensitive and covers all of Unicode.
