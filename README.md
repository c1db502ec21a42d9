# gowa-client request layer in Dafny

This project models the request-building core of the Go gateway client in
`pkg/gowa/client.go`. It covers:

- `New`: the configuration defaults, the base URL, the retry settings, the
  timeout written into the caller's HTTP client, and the common header table
  with its HTTP Basic credential.
- `url`: the base URL with its path joined to the endpoint path.
- `do`: the merge of the common headers with the per-call headers, and the
  status check.
- `getJSON` and `postJSON`: the query, the JSON body and Content-Type, and the
  decoded answer.
- The endpoint methods: their argument checks, their paths, their query
  parameters and payloads, and the `With*` payload options.

The library behaviour the client depends on is modelled in its own modules and
proved there:

- `path.Join` and `path.Clean` (module `Paths`);
- `URL.ResolveReference` with the dot-segment removal of RFC 3986, section 5.2.4 (module `NetUrl`);
- `http.Header`'s `Add` and `Set` (module `Headers`);
- `strings.TrimSpace` with the white-space set of `unicode.IsSpace` (module `Strings`);
- `[]byte(s)` as UTF-8, RFC 3629 (module `Utf8`);
- `base64.StdEncoding`, RFC 4648, section 4 (module `Base64`);
- decimal `fmt.Sprint` of integers (module `Decimal`).

The model does not cover the network or the library routines whose behaviour
is not modelled. These are function parameters:

- The transport (`Lib.send`) returns either an error or a status and a body.
  An error from `retryablehttp.NewRequest` and an error from sending are both
  this one `Failed` outcome, because `do` returns both unchanged.
- `url.Values.Encode` is `Lib.encodeQuery`.
- `url.PathEscape` is `Lib.pathEscape`.
- `json.Marshal` is `Lib.marshal`.
- `url.Parse` is a parameter of `New`.
- The JSON decoder is a parameter of each call.

An endpoint returns the request it handed to the transport (or None when its
argument check fails) together with its result. The contracts therefore state
exactly the request handed to the retrying client: the URL as a record, before
`URL.String` renders it and `retryablehttp.NewRequest` parses it again, and the
header table before key canonicalisation. Retries may send that request more
than once.

The caller's `*http.Client` is a class, `HttpClient`, because `New` writes its
`Timeout` in place and the caller still holds it. Everything else the source
builds is a value.

The `getJSON` of the model does what the source does: it appends "?" and the
encoded query to the endpoint path and hands that path to `url`, so the query
ends up inside the URL's path. "## Findings" shows the consequence. `QueryUrl`
gives the evidently intended URL, with the query as its query component.

## Model

| member | source | states |
|---|---|---|
| `Gowa.Normalized` | pkg/gowa/client.go:37-46 | An empty base URL becomes http://localhost:3000, and a zero timeout becomes 30 s. A non-empty or non-zero value is kept. User name, password and HTTP client are left alone. |
| `Gowa.CommonHeaders` | pkg/gowa/client.go:59-67 | The table holds Accept and Content-Type (both application/json), and holds Authorization exactly when a user name or password is set. Authorization has one value, which `ParseBasic` reads back into the user name and password when the user name has no colon. |
| `Gowa.BasicRoundTrip` | pkg/gowa/client.go:64-66 | "Basic " followed by the base64 of the UTF-8 of user-id ":" password decodes back to the same user-id and password when the user-id holds no colon. |
| `Gowa.BasicToken` | pkg/gowa/client.go:65 | The token is base64 text that decodes to the UTF-8 bytes of user-id ":" password, and those bytes decode back to that text. |
| `Gowa.New` | pkg/gowa/client.go:36-69 | If the defaulted base URL does not parse, the result is the error "invalid base url: " plus the parser's message, and the caller's HTTP client is untouched. Otherwise the client holds the normalized config, the parsed base, the common header table and retry settings 200 ms / 2 s / 3. Its HTTP client is the caller's one (if any) or a fresh one, and its timeout is set to the config's timeout. |
| `Gowa.UrlFor` | pkg/gowa/client.go:71-73 | The request URL keeps the base's scheme. When the base path or `p` is non-empty, it also keeps user and host, has a rooted path and carries no query, fragment or opaque part. |
| `Gowa.UrlForShape` | pkg/gowa/client.go:71-73 | For a rooted endpoint path, the request URL keeps the base's scheme, user and host and drops its query and fragment. Its path is `path.Join(base path, p)`: rooted, free of `//`, and with no trailing slash unless it is `/`. |
| `Gowa.UrlForKeepsBasePath` | pkg/gowa/client.go:72 | Over any rooted base path, a rooted endpoint path without `..` yields a request path that starts with the cleaned base path, followed by a slash when more follows (unless the cleaned base is `/`). |
| `Gowa.UrlForDropsQuery` | pkg/gowa/client.go:72 | The URL of a non-empty path carries neither the base's query nor its fragment. |
| `Gowa.StatusError` | pkg/gowa/client.go:98 | The message starts with "http " and ends with ": " followed by the body. |
| `Gowa.StatusErrorRoundTrip` | pkg/gowa/client.go:98 | The message "http <status>: <body>" reads back to the same status and body. |
| `Gowa.CheckStatus` | pkg/gowa/client.go:91-100 | The result is an error exactly when the transport failed or the status is 400 or more. A transport error is passed on unchanged. A status of 400 or more gives exactly the message `StatusError(status, body)`, "http <status>: <body>", from which the status and body read back. Otherwise the response is passed on untouched. |
| `Gowa.Do` | pkg/gowa/client.go:75-101 | The request sent carries the method, the body, the URL of the path `p` (`UrlFor(c, p)`, with whatever `p` holds in its path) and the merged headers `Headers.Merged(common, headers)`. The result is the status check of the transport's answer. |
| `Gowa.JsonRequestHeaders` | pkg/gowa/client.go:124 | For a client built by `New`, a request with no per-call headers, or with the JSON Content-Type, carries exactly the common table. |
| `Gowa.PostRequest` | pkg/gowa/client.go:115-124 | The POST request's Content-Type is exactly [application/json], whatever the common table holds. |
| `Gowa.WithQuery` | pkg/gowa/client.go:104-105 | With no query the path is `p`. With a query it is `p`, then `?`, then exactly the encoded query. |
| `Gowa.GetRequest` | pkg/gowa/client.go:103-107 | The GET has no body and the URL of the path with its query suffix. Its headers are exactly the common table when each common key has a value. |
| `Gowa.GetJSON` | pkg/gowa/client.go:103-113 | As written: with no query the URL is that of `p`, and with a query it is the URL of `p + "?" + encoded query`. The request is `GetRequest`. A success is the decoded body of a response whose status check passed. |
| `Gowa.PostJSON` | pkg/gowa/client.go:115-134 | The request is a POST with JSON Content-Type, and it has a body exactly when there is a payload. An error from `do` is returned unchanged. With no output the result is success with nothing. Otherwise the result is the decoded body. |
| `Gowa.WithQueryClean` | pkg/gowa/client.go:104-105 | A clean rooted endpoint path followed by `?` and a slash-free encoded query is still clean, rooted and not the root. |
| `Gowa.GetPath` | pkg/gowa/client.go:104-107 | As written, the path asked for is the base path followed by the endpoint path, `?` and the encoded query. |
| `Gowa.QueryInPath` | pkg/gowa/client.go:104-107 | As written, with a non-empty query the URL has no query component, and the query sits at the end of its path. |
| `Gowa.QueryPathsDiffer` | pkg/gowa/client.go:104-107 | As written, with a non-empty query the requested path differs from the endpoint's path. |
| `Gowa.QueryUrlPath` | pkg/gowa/client.go:104-107 | Corrected placement: the path is the base path followed by the endpoint path, and the query component is the encoded query (empty without a query), whatever characters the encoding holds. Scheme and host are the base's. |
| `Gowa.DurationOptionsAgree` | pkg/gowa/client.go:409-436 | `WithDisappearingDuration` and `WithDurationStr` set the same key, and the text value reads back to the same number. |
| `Gowa.WithReplyMessageID` | pkg/gowa/client.go:401-403 | Applied last after any options, the payload's reply_message_id holds the given id. |
| `Gowa.WithForwarded` | pkg/gowa/client.go:405-407 | Applied last after any options, the payload's is_forwarded holds the given flag. |
| `Gowa.WithDisappearingDuration` | pkg/gowa/client.go:409-411 | Applied last after any options, the payload's duration holds the given number. |
| `Gowa.WithDurationStr` | pkg/gowa/client.go:434-436 | Applied last after any string options, the field duration holds decimal text that reads back to the given number. |
| `Gowa.LastFor` | pkg/gowa/client.go:301-303 | A value for the key is found exactly when the key is among the options' keys. |
| `Gowa.LastForIsLast` | pkg/gowa/client.go:301-303 | The value found is that of an option naming the key after which no option names it, so the last option wins. |
| `Gowa.Applied` | pkg/gowa/client.go:301-303 | After the options, the payload's keys are the base keys plus the option keys. Every option key holds the value of the last option naming it. Every other key keeps its base value. |
| `Gowa.AppliedSnoc` | pkg/gowa/client.go:391-393 | Options apply in order: one more option overwrites its key on the payload the earlier ones produced. |
| `Gowa.ApplyOptions` | pkg/gowa/client.go:449-451 | The option loop produces exactly `Applied(payload, opts)`. |
| `Gowa.LoginWithCodeGuard` | pkg/gowa/client.go:257-259 | Rejects the phone, with "phone is required", exactly when it is empty or all white space. |
| `Gowa.UserInfoGuard` | pkg/gowa/client.go:285-287 | Rejects the JID, with "phoneJID is required", exactly when it is empty or all white space. |
| `Gowa.PresenceGuard` | pkg/gowa/client.go:297-299 | Accepts exactly "available" and "unavailable", compared as written. It rejects everything else with the fixed message. |
| `Gowa.ChatGuard` | pkg/gowa/client.go:350-352 | Rejects only the empty chat JID. |
| `Gowa.MessageGuard` | pkg/gowa/client.go:384-386 | Rejects exactly when the phone or the message is empty or all white space. |
| `Gowa.ImageFileGuard` | pkg/gowa/client.go:415-417 | Rejects exactly when the phone or the file path is empty, without trimming. |
| `Gowa.ImageUrlGuard` | pkg/gowa/client.go:439-441 | Rejects exactly when the phone or the image URL is empty, without trimming. |
| `Gowa.BlankPhoneChecks` | pkg/gowa/client.go:384-441 | A non-empty phone of white space only is refused by `SendMessage` and `LoginWithCode` but accepted by both image senders. |
| `Gowa.SetNumber` | pkg/gowa/client.go:320-322 | The parameter is present only for a positive number, as exactly the one value `fmt.Sprint(n)`, which reads back to it. Every other key is untouched. |
| `Gowa.SetText` | pkg/gowa/client.go:326-328 | The parameter is present only for non-empty text, holding that text. Every other key is untouched. |
| `Gowa.SetFlag` | pkg/gowa/client.go:329-331 | The parameter is present only when the flag is given, as "true" or "false". Every other key is untouched. |
| `Gowa.ListChatsQuery` | pkg/gowa/client.go:319-331 | The query holds limit and offset only when positive, each as the `fmt.Sprint` text of the number, search only when non-empty, has_media only when given, and no other key. |
| `Gowa.ParamNamesDistinct` | pkg/gowa/client.go:319-374 | The query parameter names the endpoints set are pairwise distinct, so setting one never touches another. |
| `Gowa.ListChats` | pkg/gowa/client.go:318-337 | The query is as `ListChatsQuery` states. The request is `GetRequest` of /chats with that query, which as written puts the query in the path. The result is the decoded answer. |
| `Gowa.ChatMessagesQuery` | pkg/gowa/client.go:353-374 | Each of the seven parameters is present only when given (numbers positive, texts non-empty, flags set). Each value is exactly the text the source sets: `fmt.Sprint` of a number or flag, the text itself otherwise. No other key is present. |
| `Gowa.GetChatMessages` | pkg/gowa/client.go:349-381 | An empty JID sends nothing and fails with "chatJID is required". Otherwise the query is as `ChatMessagesQuery` states, and the request is `GetRequest` of `ChatMessagesPath` with that query in the path. The result is the decoded answer. |
| `Gowa.ChatMessagesPath` | pkg/gowa/client.go:376 | The path is rooted. When the escaped JID holds no slash, its elements are exactly chat, the escaped JID and messages. |
| `Gowa.Login` | pkg/gowa/client.go:248-254 | A GET of /app/login with no query, and the decoded answer. |
| `Gowa.LoginWithCode` | pkg/gowa/client.go:256-266 | Sends nothing exactly when the phone is blank. Otherwise it sends `GetRequest` of /app/login-with-code with the untrimmed phone as the `phone` parameter, and returns the decoded answer. |
| `Gowa.Logout` | pkg/gowa/client.go:268-274 | A GET of /app/logout. The result succeeds exactly when decoding succeeded, and otherwise carries the same error. |
| `Gowa.Reconnect` | pkg/gowa/client.go:276-282 | A GET of /app/reconnect. The result succeeds exactly when decoding succeeded, and otherwise carries the same error. |
| `Gowa.UserInfo` | pkg/gowa/client.go:284-294 | Sends nothing exactly when the JID is blank. Otherwise it sends `GetRequest` of /user/info with the untrimmed JID as the `phone` parameter, and returns the decoded answer. |
| `Gowa.SendPresence` | pkg/gowa/client.go:296-309 | Sends nothing unless the presence is "available" or "unavailable". Otherwise it POSTs to /send/presence the payload {type} with the options applied. |
| `Gowa.SendMessage` | pkg/gowa/client.go:383-399 | Sends nothing exactly when the phone or the message is blank. Otherwise it POSTs to /send/message the payload {phone, message} with the options applied. |
| `Gowa.SendImageFile` | pkg/gowa/client.go:414-432 | Fails exactly when the phone or the file path is empty. Otherwise the upload goes to /send/image with the fields phone, caption, view_once and compress ("true"/"false") after the options, the file field "image" and the file path. |
| `Gowa.SendImageURL` | pkg/gowa/client.go:438-457 | Sends nothing exactly when the phone or the image URL is empty. Otherwise it POSTs to /send/image the five fields with the options applied. |
| `Headers.Merged` | pkg/gowa/client.go:81-90 | An override key with a value holds just its last value. Any other common key with a value keeps its values in order. No other key is present. |
| `Headers.MergedWithoutOverrides` | pkg/gowa/client.go:107 | With no per-call headers, the merge sends a common table whose keys all have values unchanged. |
| `Headers.MergedOverride` | pkg/gowa/client.go:124 | A single-valued override sets exactly that value. |
| `Headers.MergedSameValue` | pkg/gowa/client.go:124 | Overriding a key with the single value it already holds changes nothing. |
| `Headers.Add` | pkg/gowa/client.go:83 | `Add` appends the value to the key's list and leaves every other key alone. |
| `Headers.Set` | pkg/gowa/client.go:88 | `Set` makes the key's list exactly the value and leaves every other key alone. |
| `Headers.AddValues` | pkg/gowa/client.go:82-84 | Adding the values one by one appends them, in order, to the key's list. |
| `Headers.SetValues` | pkg/gowa/client.go:87-89 | Setting the values one by one leaves only the last. |
| `Headers.AddCommon` | pkg/gowa/client.go:81-85 | The first loop copies every common key that has values, with those values, and nothing else. |
| `Headers.SetOverrides` | pkg/gowa/client.go:86-90 | The second loop gives every override key with values its last value, and leaves the other keys as they were. |
| `Headers.Build` | pkg/gowa/client.go:81-90 | Both loops together produce exactly `Merged(common, headers)`, whatever order the map iteration takes. |
| `Paths.Split` | pkg/gowa/client.go:72 | Splitting at slashes yields at least one element, and no element holds a slash. |
| `Paths.SplitIntercalate` | pkg/gowa/client.go:72 | Joining slash-free elements with `/` and splitting again gives them back. |
| `Paths.ResolveKeepsCleaned` | pkg/gowa/client.go:72 | The lexical walk of `path.Clean` keeps its output clean: names only, with leading `..` allowed only in an unrooted path. |
| `Paths.Join` | pkg/gowa/client.go:72 | The join is empty exactly when both arguments are. With a non-empty first argument it is rooted exactly when that argument is. |
| `Paths.Clean` | pkg/gowa/client.go:72 | The cleaned path is non-empty, has no `//`, and has no trailing slash unless it is `/`. It is rooted exactly when the input is. |
| `Paths.CleanRender` | pkg/gowa/client.go:72 | Cleaning a clean rendering gives it back. |
| `Paths.CleanIdempotent` | pkg/gowa/client.go:72 | `path.Clean` is idempotent. |
| `Paths.JoinShape` | pkg/gowa/client.go:72 | `path.Join` of anything non-empty has no `//` and no trailing slash other than the root, and is rooted exactly when its first non-empty argument is. |
| `Paths.JoinIsClean` | pkg/gowa/client.go:72 | The result of `path.Join` is clean. |
| `Paths.JoinKeepsBase` | pkg/gowa/client.go:72 | Joining a path without `..` onto any rooted base extends the cleaned base, with a slash between unless the cleaned base is `/`. |
| `Paths.JoinCleanRooted` | pkg/gowa/client.go:72 | Joining two clean rooted paths concatenates them, with the root `/` acting as the identity. |
| `Paths.CleanAppendSuffix` | pkg/gowa/client.go:105 | Slash-free text appended to a clean rooted path other than `/` leaves it clean. |
| `NetUrl.MergePath` | pkg/gowa/client.go:72 | The merged path is empty exactly when base and reference both are. |
| `NetUrl.ResolvePath` | pkg/gowa/client.go:72 | The result is empty exactly when base and reference both are, and is rooted otherwise. |
| `NetUrl.ResolveReference` | pkg/gowa/client.go:72 | Keeps the scheme. A non-empty path reference drops the base's query and fragment and keeps user and host. The path becomes the resolved path. |
| `NetUrl.ResolvePathOfClean` | pkg/gowa/client.go:72 | Dot-segment removal leaves any rooted path produced by `path.Clean` unchanged, whatever the base. |
| `Strings.TrimSpace` | pkg/gowa/client.go:257 | The result is empty exactly when the input is all white space. Otherwise it neither starts nor ends with white space. |
| `Strings.TrimLeftEmpty` | pkg/gowa/client.go:257 | Trimming leading white space leaves nothing exactly when the text is all white space. |
| `Strings.TrimRightEmpty` | pkg/gowa/client.go:257 | Trimming trailing white space leaves nothing exactly when the text is all white space. |
| `Strings.IndexAfter` | pkg/gowa/client.go:65 | The first colon of user-id ":" password is the one after a colon-free user-id. |
| `Utf8.Encode` | pkg/gowa/client.go:65 | Each character takes one to four bytes. |
| `Utf8.DecodeEncode` | pkg/gowa/client.go:65 | `[]byte(s)` loses nothing: decoding the UTF-8 bytes gives the string back. |
| `Base64.Encode` | pkg/gowa/client.go:65 | The encoding has four characters per started group of three bytes, all from the alphabet or `=`. |
| `Base64.DecodeEncode` | pkg/gowa/client.go:65 | Decoding the standard padded encoding gives the bytes back. |
| `Decimal.FormatInt` | pkg/gowa/client.go:98 | The decimal text is non-empty digits, with at most a leading minus sign. |
| `Decimal.ParseFormatInt` | pkg/gowa/client.go:321 | The decimal text of an integer reads back to the same integer. |

## Left out

- Retries and backoff are left out. `New`'s retry settings are recorded, but the retrying transport is a single oracle call.
- Contexts, deadlines and the HTTP client's timeout behaviour are left out. The timeout value is recorded only.
- `URL.String` and path escaping are left out. The model hands the URL record to the transport.
- `URL.EscapedPath` and `RawPath` are left out, for the same reason.
- `url.Parse`, `url.Values.Encode` and `url.PathEscape` are oracles, so their own behaviour is not modelled.
- Header-key canonicalisation (`CanonicalMIMEHeaderKey`) is left out. Every key the client writes is already canonical.
- JSON encoding and decoding, and the response structs, are oracles.
- Gowa.PostJSON: the `json.Marshal` error path is not modelled. The payloads the endpoints build (strings, booleans, integers) always marshal.
- Gowa.SendImageFile: modelled up to the upload it hands to `postFormFile`, which is left out. That covers the multipart body, the pipe and its goroutine, file I/O, the form-data Content-Type header and the call itself.
- Option closures other than the `With*` helpers are left out. The options are their key and value assignments.
- Go's `int` width is left out: limits, offsets, statuses and durations are unbounded integers.
- Gowa.BasicRoundTrip: the credential reads back only for a user-id without a colon. With a colon, the first colon is taken as the separator, as RFC 7617, section 2 allows only colon-free user-ids.
- Gowa.CommonHeaders: its read-back clause has the same colon-free condition, for the same reason.
- Strings that are not valid Unicode are left out. A Dafny `string` holds only scalar values, so Go strings with invalid UTF-8 bytes are outside the model.
- The demo programs `cmd/demo/main.go` and `app.go` are not part of this model.

## Findings

| source | as written | input that shows it | evidently intended | confidence | as-written member | corrected member |
|---|---|---|---|---|---|---|
| pkg/gowa/client.go:104-107 | `getJSON` appends "?" and the encoded query to the path it hands to `url`. `url` puts that path, through `path.Join`, into the URL's `Path`, and `URL.String` then escapes the `?` as `%3F`. | `LoginWithCode(ctx, "5511999")` on the default base: the URL path is `/app/login-with-code?phone=5511999` and the query is empty, so it is sent as `/app/login-with-code%3Fphone=5511999` | The path is `/app/login-with-code` and the query is `phone=5511999`. | high; not executed | `Gowa.QueryInPath` | `Gowa.QueryUrlPath` |

`GetJSON`, `GetRequest` and the GET endpoints follow the source as written. `QueryUrl` is the corrected URL, and `QueryUrlPath` proves that it keeps the endpoint path and carries the query as its query component.
