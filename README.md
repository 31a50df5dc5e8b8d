# Alertify in Dafny

Alertify is a scam-detection web application. A FastAPI backend classifies UPI
IDs, SMS messages, URLs, phone numbers and QR images. A React frontend has one
page per channel, a profile page and a guarded route table. This project models
the parts of both layers that are logic rather than machine learning, and it
proves properties of them:

- the phone-number feature extractor (`NumericFeatureExtractor.transform`);
- the URL router's feature extraction, trusted-domain whitelist and 0.5 threshold;
- the SMS router's OTP and meeting "force Ham" heuristics, its guards and its
  label overrides;
- the phone router's digit cleaning, guards and best-effort confidence;
- the request lifecycle and the result display of the UPI, phone, SMS, URL and
  QR pages;
- the profile page's edit, save, cancel and picture-upload handlers, and its
  display fallbacks;
- `App`'s route table and its two guards.

Modules:

- `Common`: `Option`, `Outcome` (a value or the message of a raised exception) and `Map`.
- `Text`: ASCII character classes and the string built-ins the code uses. These
  are `lower()`, `strip()`/`trim()`, `in`, `replace`, `count`, `split`, and
  regular-expression `\b` whole-word search.
- `Web`: what a page sees of a request, and JavaScript truthiness.
- `PhoneFeatures`: `backend/app/utils/features.py`.
- `UrlRouter`: `backend/app/routers/url_router.py`.
- `SmsRouter`: `backend/app/routers/sms_router.py`.
- `PhoneRouter`: `backend/app/routers/phone_router.py`.
- `UpiPage`, `PhonePage`, `SmsPage`, `UrlPage` and `QrPage`: the five detector pages.
- `ProfilePage` and `AppRoutes`: the profile page and the route table.

Everything the code asks of a trained model is a parameter: the predicted class
and its probability, the spam probability, or the exception raised instead. The
same holds for the network and for the auth store. A request's outcome is
`ConnectionFailed` or `Received(ok, data)`. The store's `user`, its flags and
the success of `updateProfile` are arguments.

The frontend components are classes. Their `useState` variables are fields.
Calls to `alert`, toasts and the bodies of outgoing requests are recorded in
sequence fields. Every `async` handler is split at its `await`: the part before it
(`BeginPredict`, `HandleUpload`, `BeginSaveProfile`, `HandleImageUpload`) and the
part after it (`FinishPredict`, `DecodeSettled`, `UploadSettled`, `SaveSettled`,
`ImageUploadSettled`) are separate methods. `HandlePredict` and
`HandleSaveProfile` compose the two parts of a handler. Every detector button is
disabled while `loading`, so starting a request requires `!loading`.

Each page checks its own input: the UPI, phone, SMS and URL pages each do their
own blank check on the trimmed text, and only the UPI page also checks a format.
No handler compares a reply with the request that produced it: whatever reply
arrives is stored in the page that sent the request.

## Model

| member | source | states |
|---|---|---|
| Text.ToLower | backend/app/routers/url_router.py:18 | `lower()`: the same length, and each character lower-cased (ASCII) |
| Text.ToLowerNoUpper | backend/app/routers/url_router.py:18 | a lower-cased string has no upper-case letter, and lower-casing it again changes nothing |
| Text.Strip | backend/app/routers/url_router.py:81 | `strip`/`trim`: the result is a slice of the input with every character outside it droppable and its own first and last characters kept, so it is empty exactly when every character is droppable |
| Text.BlankClassesDiffer | backend/app/routers/sms_router.py:68 | Python's `str.strip` and JavaScript's `trim` disagree on what is blank: `\x1c` is blank only for Python, U+FEFF only for JavaScript |
| Text.CountIf | backend/app/routers/url_router.py:20 | the count is at most the length, and equals it exactly when every character qualifies |
| Text.CountIfIsMultiplicity | backend/app/routers/url_router.py:19 | counting the characters equal to `x` gives the multiplicity of `x` (`str.count`) |
| Text.RemoveAll | backend/app/routers/url_router.py:18 | `replace(p, "")` shortens the string exactly when `p` occurs in it, and leaves it unchanged when `p` does not occur |
| Text.RemoveAllFirst | backend/app/routers/url_router.py:18 | `replace(p, "")` keeps everything before the first occurrence of `p`, drops that occurrence and carries on after it; with the no-occurrence case this fixes the result of `replace` |
| Text.AfterLast | backend/app/routers/url_router.py:21 | `split('.')[-1]` is a dot-free suffix, preceded by a dot when it is not the whole string |
| Text.BeforeFirst | frontend/src/pages/ProfilePage.jsx:234 | `split("T")[0]` is a `T`-free prefix, followed by a `T` when it is not the whole string |
| Web.OrElse | frontend/src/pages/SmsPage.jsx:24 | JavaScript's `or` fallback on a string field: the field when it is a non-empty string, and the fallback otherwise |
| PhoneFeatures.MaxRunLength | backend/app/utils/features.py:35-42 | `max_run` is the length of the longest block of equal adjacent characters; it is 1 for an empty string |
| PhoneFeatures.ExtractRow | backend/app/utils/features.py:28-51 | one row: length, the `140`/`1800`/`91` prefix flags, distinct characters, longest block, digit sum mod 10, triple flag, last-digit parity |
| PhoneFeatures.Transform | backend/app/utils/features.py:13-53 | one row per input number, in input order, each one the row of that number |
| PhoneFeatures.FeaturesOfUnique | backend/app/utils/features.py:27-51 | a number has exactly one feature row |
| PhoneFeatures.CharsBound | backend/app/utils/features.py:33 | `len(set(s))` is at most `len(s)` and at least 1 for a non-empty number |
| PhoneFeatures.DigitCharsBound | backend/app/utils/features.py:33 | a set of digit characters has at most ten members |
| PhoneFeatures.FeatureBounds | backend/app/utils/features.py:28-51 | the flags are 0 or 1, the counts stay within the length and ten digits, and a `1800` prefix excludes `140` and `91` |
| PhoneFeatures.TripleRepeatIffLongRun | backend/app/utils/features.py:50 | `(\d)\1\1` matches exactly when the longest block has length 3 or more |
| PhoneFeatures.LastDigitEvenIff | backend/app/utils/features.py:51 | `last_digit_even` is 1 exactly when the last digit is 0, 2, 4, 6 or 8 |
| UrlRouter.CleanUrl | backend/app/routers/url_router.py:18 | the cleaned URL is no longer than the input, has no upper-case letter, and neither starts nor ends with `/` |
| UrlRouter.CleanUrlWithoutPatterns | backend/app/routers/url_router.py:18 | a URL holding none of `http://`, `https://`, `www.` after lower-casing is only lower-cased and stripped of `/` at both ends |
| UrlRouter.CleanUrlDropsInnerWww | backend/app/routers/url_router.py:18 | a `www.` in the middle of the URL is removed too: `a/www.b` cleans to `a/b` |
| UrlRouter.RemovalCanRejoin | backend/app/routers/url_router.py:18 | one `replace` pass can join the text on either side of a removed `www.` into a new `www.`: `wwwww.w.` becomes `www.` |
| UrlRouter.CountPresent | backend/app/routers/url_router.py:23 | the keyword count is the number of distinct listed keywords that occur in the cleaned URL |
| UrlRouter.FeatureRow | backend/app/routers/url_router.py:18-24 | `num_digits` is the number of digits of the cleaned URL, the keyword count is the number of listed keywords the cleaned URL contains, hyphens plus digits fit in it, and the TLD flag is 0 or 1 |
| UrlRouter.ExtractNumericFeatures | backend/app/routers/url_router.py:12-25 | the loop appends exactly the row of each URL, in order |
| UrlRouter.HyphensCounted | backend/app/routers/url_router.py:19 | `num_hyphens` is the number of `-` in the cleaned URL |
| UrlRouter.TldIsLastLabel | backend/app/routers/url_router.py:21 | the TLD is the dot-free tail of the cleaned URL: all of it without a dot, else what follows the last dot |
| UrlRouter.SuspiciousTldIff | backend/app/routers/url_router.py:22 | `suspicious_tld` is 1 exactly when the TLD is one of the seven listed |
| UrlRouter.Normalise | backend/app/routers/url_router.py:81 | the whitelist form of a URL is no longer than the URL, has no upper-case letter, and is empty for a blank URL |
| UrlRouter.NormaliseWithoutPatterns | backend/app/routers/url_router.py:81 | a URL holding none of the three patterns after trimming and lower-casing has exactly its trimmed, lower-cased form as whitelist form |
| UrlRouter.NormaliseIgnoresOuterSpace | backend/app/routers/url_router.py:81 | whitespace around the URL is trimmed before matching, so it never changes the whitelist form |
| UrlRouter.NormaliseIgnoresCase | backend/app/routers/url_router.py:81 | the whitelist form of a URL equals that of its lower-cased form, so the whitelist ignores case |
| UrlRouter.IsWhitelisted | backend/app/routers/url_router.py:84-90 | the loop with early return answers whether some trusted domain is a substring |
| UrlRouter.LookalikeWhitelisted | backend/app/routers/url_router.py:84-85 | hosts that merely embed a trusted name (`google.com.evil.xyz`, `notgithub.com`) pass the whitelist |
| UrlRouter.Predict | backend/app/routers/url_router.py:77-105 | no model gives the error; a whitelisted URL is Safe with confidence 1.0; otherwise Malicious exactly when the spam probability is at least 0.5, the raw URL is echoed, and an exception becomes "Prediction failed: ..." |
| SmsRouter.LooksLikeOtp | backend/app/routers/sms_router.py:29-35 | a text is OTP-like exactly when it has a whole-word OTP word, or has a standalone 4-6 digit token together with a whole-word context word; each rule alone suffices |
| SmsRouter.LooksLikeMeeting | backend/app/routers/sms_router.py:37-61 | a text looks like a meeting exactly when a meeting keyword occurs and no spam keyword, link pattern or money word does |
| SmsRouter.PredictSms | backend/app/routers/sms_router.py:65-99 | the 500 guard precedes the 400 guard for blank text; otherwise the label is Ham exactly when class 1 or either heuristic fires, Spam in all other cases; the raw text is echoed and the confidence scaled by 100 |
| SmsRouter.HttpsAlternativeRedundant | backend/app/routers/sms_router.py:55 | whatever `https\S+` matches, `http\S+` matches too |
| SmsRouter.RupeeSignNeedsWordNeighbours | backend/app/routers/sms_router.py:57 | `\b₹\b` matches only where the sign has a word character on both sides |
| SmsRouter.SpamKeywordVetoesMeeting | backend/app/routers/sms_router.py:50-52 | a spam keyword anywhere rules the meeting override out |
| SmsRouter.MeetingNeedsKeyword | backend/app/routers/sms_router.py:45-47 | without a meeting keyword the meeting override never fires |
| SmsRouter.SpamIsAMeeting | backend/app/routers/sms_router.py:37-61 | the keywords are matched as substrings, so the text "spam" counts as a meeting (it holds "am") |
| SmsRouter.OtpWordExample | backend/app/routers/sms_router.py:29-32 | "Your OTP is 123456" looks like an OTP message |
| SmsRouter.DigitTokenExample | backend/app/routers/sms_router.py:33-34 | "is 1234" is OTP-like through the digit-token rule alone, with no OTP word |
| SmsRouter.WordBoundaryExample | backend/app/routers/sms_router.py:29-35 | "pink" does not: "pin" inside it is not a whole word, and it has no 4-6 digit token |
| PhoneRouter.DigitsOnly | backend/app/routers/phone_router.py:50 | `re.sub(r"\D", "", s)` keeps only digits and never lengthens |
| PhoneRouter.DigitsOnlyAppend | backend/app/routers/phone_router.py:50 | cleaning distributes over concatenation, so the digits keep their order |
| PhoneRouter.DigitsOnlyKeepsDigits | backend/app/routers/phone_router.py:50 | a string of digits is left unchanged |
| PhoneRouter.DigitsOnlyIdempotent | backend/app/routers/phone_router.py:50 | cleaning twice is cleaning once |
| PhoneRouter.DigitsOnlyCount | backend/app/routers/phone_router.py:50-52 | the cleaned length is the number of digits of the input, and it is empty exactly when the input has no digit |
| PhoneRouter.CleanedIsPhoneDigits | backend/app/routers/phone_router.py:50-59 | a non-empty cleaned number is a valid input of the feature extractor |
| PhoneRouter.FirstIndex | backend/app/routers/phone_router.py:65 | `list.index`: the first position holding the label, and none exactly when the label is absent |
| PhoneRouter.PredictPhone | backend/app/routers/phone_router.py:44-82 | the model and no-digit guards; an exception in `predict` or `predict_proba` becomes "Prediction failed: ..."; otherwise the raw number and label are echoed, with a confidence exactly when probabilities, classes and an in-range index for the label exist |
| UpiPage.ValidateUpi | frontend/src/pages/UpiPage.jsx:8-12 | accepts exactly the strings that split into `[a-zA-Z0-9._-]+`, `@`, `[a-zA-Z0-9]+` |
| UpiPage.UpiSplitUnique | frontend/src/pages/UpiPage.jsx:10 | a UPI ID splits into handle and provider in at most one way |
| UpiPage.ValidUpiHasNoOuterBlank | frontend/src/pages/UpiPage.jsx:15-22 | an accepted ID is not blank and has no blank at either end, so padded input gets the "Invalid" alert |
| UpiPage.PredictedProbability | frontend/src/pages/UpiPage.jsx:98 | the probability of the predicted class when that entry exists, else 0 |
| UpiPage.Render | frontend/src/pages/UpiPage.jsx:74-108 | nothing without a result; a truthy `error` alone shows the error; otherwise the box says Safe exactly for prediction 0, with a confidence exactly when `probability` is present |
| UpiPage.Page.constructor | frontend/src/pages/UpiPage.jsx:4-6 | the page starts empty, without result and not loading |
| UpiPage.Page.SetUpi | frontend/src/pages/UpiPage.jsx:56 | typing changes only the input |
| UpiPage.Page.BeginPredict | frontend/src/pages/UpiPage.jsx:14-30 | a request goes out exactly for a valid ID; blank and invalid input get their alerts; a request sets `loading`; the result is untouched |
| UpiPage.Page.FinishPredict | frontend/src/pages/UpiPage.jsx:31-38 | any JSON reply replaces the result, a failed request only alerts, and `loading` ends false |
| UpiPage.Page.HandlePredict | frontend/src/pages/UpiPage.jsx:14-39 | a whole click: blank input alerts "Please enter a UPI ID", other invalid input alerts the invalid-ID message, and neither sends a request or changes the result; a valid ID is sent, its reply kept or a failure alerted; `loading` ends false |
| PhonePage.GetLabelColor | frontend/src/pages/PhonePage.jsx:29-34 | gray exactly for a falsy label, red exactly when the lower-cased label is "spam" |
| PhonePage.Render | frontend/src/pages/PhonePage.jsx:69-96 | the error block for a truthy `error`; otherwise "Spam / Unsafe" only for exactly "Spam", and the confidence row unless the confidence is `null` |
| PhonePage.ShoutedSpamMismatch | frontend/src/pages/PhonePage.jsx:79-80 | "SPAM" is coloured red but labelled "Genuine / Safe" |
| PhonePage.AbsentConfidenceShown | frontend/src/pages/PhonePage.jsx:83 | a missing `confidence` key still shows the confidence row |
| PhonePage.Page.constructor | frontend/src/pages/PhonePage.jsx:4-6 | the page starts empty, without result and not loading |
| PhonePage.Page.SetPhone | frontend/src/pages/PhonePage.jsx:51 | typing changes only the input |
| PhonePage.Page.BeginPredict | frontend/src/pages/PhonePage.jsx:8-17 | a request with the untrimmed input goes out exactly when the input is not blank; blank input alerts |
| PhonePage.Page.FinishPredict | frontend/src/pages/PhonePage.jsx:18-25 | any JSON reply replaces the result, a failed request only alerts, and `loading` ends false |
| PhonePage.Page.HandlePredict | frontend/src/pages/PhonePage.jsx:8-26 | a whole click: blank input sends nothing and changes only the alerts |
| SmsPage.Render | frontend/src/pages/SmsPage.jsx:66-92 | "Spam / Unsafe" exactly for the label "Spam", and the confidence as the backend sent it |
| SmsPage.FailureAlert | frontend/src/pages/SmsPage.jsx:24 | the alert for an error status is `detail` when truthy, else "Prediction failed" |
| SmsPage.Page.constructor | frontend/src/pages/SmsPage.jsx:4-6 | the page starts empty, without result and not loading |
| SmsPage.Page.SetSms | frontend/src/pages/SmsPage.jsx:48 | typing changes only the input |
| SmsPage.Page.BeginPredict | frontend/src/pages/SmsPage.jsx:8-17 | a request with the untrimmed message goes out exactly when it is not blank; blank input alerts |
| SmsPage.Page.FinishPredict | frontend/src/pages/SmsPage.jsx:19-31 | only an ok reply replaces the result; an error status alerts its detail; a failed request alerts; `loading` ends false |
| SmsPage.Page.HandlePredict | frontend/src/pages/SmsPage.jsx:8-32 | a whole click: the result changes only on an ok reply to a non-blank message |
| UrlPage.Render | frontend/src/pages/UrlPage.jsx:63-85 | the error block for a truthy `error`; otherwise the raw result, red exactly for "Malicious" |
| UrlPage.Page.constructor | frontend/src/pages/UrlPage.jsx:4-6 | the page starts empty, without result and not loading |
| UrlPage.Page.SetUrl | frontend/src/pages/UrlPage.jsx:44 | typing changes only the input |
| UrlPage.Page.BeginPredict | frontend/src/pages/UrlPage.jsx:8-17 | a request with the untrimmed URL goes out exactly when it is not blank; blank input alerts |
| UrlPage.Page.FinishPredict | frontend/src/pages/UrlPage.jsx:18-25 | any JSON reply, error payloads included, replaces the result; a failed request only alerts; `loading` ends false |
| UrlPage.Page.HandlePredict | frontend/src/pages/UrlPage.jsx:8-26 | a whole click: blank input sends nothing and changes only the alerts |
| QrPage.Render | frontend/src/pages/QrPage.jsx:116-140 | the raw prediction, red exactly for "Malicious", and the confidence times 100 |
| QrPage.Page.constructor | frontend/src/pages/QrPage.jsx:7-9 | no file, no result, not loading |
| QrPage.Page.HandleFileChange | frontend/src/pages/QrPage.jsx:11-14 | choosing a file sets it and clears the result, also during an upload |
| QrPage.Page.HandleUpload | frontend/src/pages/QrPage.jsx:38-45 | without a file only a toast; otherwise `loading` is set and the chosen file is decoded, the old result staying |
| QrPage.Page.DecodeSettled | frontend/src/pages/QrPage.jsx:45-58 | an image without a code resets `loading` and toasts; one with a code is posted, the file captured at the click |
| QrPage.Page.UploadSettled | frontend/src/pages/QrPage.jsx:55-66 | only a 2xx reply replaces the result and toasts success; any other outcome toasts an error; `loading` ends false |
| ProfilePage.ShowsLoading | frontend/src/pages/ProfilePage.jsx:86-92 | the loading view shows exactly when the visitor is signed out, the store is loading or there is no user record |
| ProfilePage.NameOrEmpty | frontend/src/pages/ProfilePage.jsx:58 | the user's name when it is a non-empty string, else the empty string |
| ProfilePage.AvatarSource | frontend/src/pages/ProfilePage.jsx:101 | the stored picture, else the preview, else "/avatar.png"; never empty |
| ProfilePage.OrZero | frontend/src/pages/ProfilePage.jsx:134-136 | an absent number counts as 0 |
| ProfilePage.Stats | frontend/src/pages/ProfilePage.jsx:133-137 | wallet, number of coupons and points, each 0 when absent |
| ProfilePage.MemberSince | frontend/src/pages/ProfilePage.jsx:234 | the part of `createdAt` before its first "T", absent when `createdAt` is |
| ProfilePage.MemberSinceIsDatePart | frontend/src/pages/ProfilePage.jsx:234 | an ISO timestamp shows as its date |
| ProfilePage.Page.constructor | frontend/src/pages/ProfilePage.jsx:26-29 | the name field starts from the user's name; not editing, no error, no preview |
| ProfilePage.Page.SetEditedName | frontend/src/pages/ProfilePage.jsx:193 | typing changes only the edited name |
| ProfilePage.Page.HandleEditProfile | frontend/src/pages/ProfilePage.jsx:57-60 | editing starts from the user's name |
| ProfilePage.Page.BeginSaveProfile | frontend/src/pages/ProfilePage.jsx:63-66 | before the `await`: the old error is cleared, the edited name is sent, and editing mode stays on while the call is pending |
| ProfilePage.Page.SaveSettled | frontend/src/pages/ProfilePage.jsx:66-70 | after the `await`: success leaves editing mode; failure records "Failed to update profile" and stays |
| ProfilePage.Page.HandleSaveProfile | frontend/src/pages/ProfilePage.jsx:63-71 | a whole click: the edited name is sent; success leaves editing mode without error; failure records "Failed to update profile" and stays |
| ProfilePage.Page.HandleCancelEdit | frontend/src/pages/ProfilePage.jsx:74-77 | leaves editing mode and resets the name; an earlier error stays |
| ProfilePage.Page.HandleImageUpload | frontend/src/pages/ProfilePage.jsx:42-47 | with no file nothing changes; otherwise the preview is shown |
| ProfilePage.Page.ImageUploadSettled | frontend/src/pages/ProfilePage.jsx:48-53 | success drops the preview; failure alerts and keeps it |
| AppRoutes.MatchRoute | frontend/src/App.jsx:52-143 | a matched screen is the one declared with that path, and a reset link carries a non-empty token without `/`; an unmatched path is none of the eleven literal paths and not a reset link |
| AppRoutes.MatchPathOf | frontend/src/App.jsx:52-140 | every screen's declared path matches that screen, so no route is shadowed by an earlier one |
| AppRoutes.GuardOf | frontend/src/App.jsx:55-137 | the four auth pages are guest-only, `/` and `/tweets` are open, the rest protected |
| AppRoutes.Render | frontend/src/App.jsx:46-143 | the spinner exactly while the session is checked; 404 exactly for unmatched paths; an open route shows its screen whoever is signed in; a shown page is the matched one; redirects go to `/` or `/login` |
| AppRoutes.ProtectedNeedsAuth | frontend/src/App.jsx:26-30 | a protected page shows exactly when signed in, and otherwise redirects to `/login` |
| AppRoutes.GuestOnlyNeedsNoAuth | frontend/src/App.jsx:33-37 | an auth page shows exactly when not signed in, and otherwise redirects to `/` |
| AppRoutes.ProtectedPaths | frontend/src/App.jsx:89-140 | `/profile`, `/upi`, `/sms`, `/qr`, `/url`, `/phone` are protected; `/` and `/tweets` are open |
| AppRoutes.GuestOnlyAndOpenPaths | frontend/src/App.jsx:52-140 | `/signup`, `/login` and `/forgot-password` are guest-only; `/` and `/tweets` show the dashboard and the tweets to everyone |
| AppRoutes.RedirectSettles | frontend/src/App.jsx:26-37 | every redirect lands on a page that shows, so the guards never loop |
| AppRoutes.ResetLinkCarriesToken | frontend/src/App.jsx:79-86 | `/reset-password/<token>` shows the reset page with that token to a visitor not signed in |

## Left out

- Machine learning: the BERT tokenizer and classifier, the scikit-learn pipelines and `upi_router.py` are parameters of the model, not models.
- `backend/app/routers/qr_router.py` is not part of this model: it is TensorFlow loading, image preprocessing and temporary files.
- `digit_entropy` (`features.py`, lines 44-47) is floating-point arithmetic; `Features` has no entropy column.
- SmsRouter.PredictSms: the confidence is `confidence * 100` without `round(..., 2)`.
- UrlRouter.Predict: the confidence is the spam probability without `round(..., 4)`.
- Display formatting: `toFixed(2)`, and the `₹` prefix of the wallet stat, are not modelled. The pages' confidence values are the numbers before formatting.
- Unicode: letters, digits, `\w`, `\D` and lower-casing are ASCII only. Python and JavaScript use Unicode classes for these. The two whitespace sets are modelled in full.
- JSON replies are records of the fields each page reads. A body that is not an object (`null`, a number), and a field of an unexpected type, are not modelled.
- AppRoutes.MatchRoute: paths compare exactly. React Router's case-insensitive matching and its tolerance of a trailing slash are not modelled.
- `checkAuth` on mount, `logout`/`handleLogout`, and the store's `isUpdatingProfile` flag belong to the external auth store. The model takes the store's flags and the outcome of `updateProfile` as arguments, and does not model how `updateProfile` changes `user`.
- The image decoding of `validateQrImage` (FileReader, Image, canvas, jsQR) is the `isQr` argument of `QrPage.Page.DecodeSettled`. An image that never loads never resolves the promise, so that call never happens and `loading` stays set.
- `console.error`, styling and the presentation-only components are not modelled.
- The `await` points are modelled as method boundaries. The order in which replies of separate pages interleave is not modelled.
