# Chat function of the portfolio assistant, modelled in Dafny

The repository is one serverless function, `netlify/functions/chat-gemini.js`,
that answers chat messages about a developer's portfolio by forwarding them to
a generative language model. Its live part (lines 235-354) does three things
this project models:

- **Request gating** (`Handler.Gate`): a CORS preflight (`OPTIONS`) gets 200
  and no body; any method other than `POST` gets 405; a missing, empty or
  wrong `x-access-token` header gets 401; a body that does not parse gets 500
  with the parser's error; a missing or empty `message` gets 400. Only then is
  the knowledge base loaded and the model called.
- **Conversation assembly** (`Conversation.Contents`): the knowledge text
  wrapped in a fixed Spanish instruction as a user turn, a fixed greeting as a
  model turn, the client's history with each role normalised to `user` or
  `model`, and the new message last.
- **Knowledge cache** (`KnowledgeBase.KnowledgeCache`): the module-level
  variables `knowledgeBaseCache` and `lastLoadTime` with a five-minute
  (300000 ms) window. A truthy cached text younger than the window is served
  without a fetch; otherwise one fetch is made, and whatever body arrives is
  stored, stamped with the clock reading taken after it arrived, and returned; if the fetch throws, the fixed
  text `NO SE PUDO CARGAR EL KNOWLEDGE BASE` is returned and the cache is left
  as it was. Calls within one window that starts with a miss all return the
  same text as long as each fetch delivers a non-empty body; a fetch that
  throws or returns an empty body leaves the next call a miss. A window that
  starts with a hit may return two texts, because the text cached earlier can
  expire part-way through it.

`Handler.Handle` puts the three together: a request stopped by the checks
leaves the cache untouched and never reaches the model; a valid request loads
the knowledge base once and, when `history` is an array, hands the assembled
contents to the model once; it answers 200 with `{reply}` or 500 with `{error}`
carrying the thrown message (a `history` that is not an array throws before the
model is called).

The clock (`Date.now()`), the outcome of the fetch and the model call are
parameters: `now: int` (the reading that decides freshness),
`FetchResult = FetchOk(body, loadedAt) | FetchError` (with `loadedAt` the
second reading, taken after the body arrived, which stamps the cache), and a
function from the contents to `ModelOutcome = Generated(text) | Threw(message)`.
JavaScript truthiness is followed: an empty-string token or message counts as
absent, and so does an empty-string cache.

Two details of the code are kept as they are:

- The loader checks neither `response.ok` nor the body's length: any received
  body is cached and returned, an empty one included (an empty cache is then a
  miss on the next call). See `KnowledgeBase.LoadSpec` and
  `KnowledgeBase.EmptyBodyMissesNext`.
- The keyword-matched canned replies and the 200-on-failure policy exist only
  in the commented-out lines 1-232; the live handler answers 500 with the
  error's message.

## Model

| member | source | states |
|---|---|---|
| KnowledgeBase.LoadSpec | netlify/functions/chat-gemini.js:250-275 | a fetch is issued exactly when the cache is absent (`null`), the empty string, or at least 300000 ms old; without a fetch the state is unchanged and the cached text is returned; a thrown fetch returns the fallback text and leaves the state unchanged; the state changes only by storing a received body stamped with the clock reading taken after it arrived; empty text is returned only after fetching an empty body |
| KnowledgeBase.Run | netlify/functions/chat-gemini.js:254-270 | successive loads return one text per call, fetch at most once per call, and leave the cache unchanged when no fetch happened |
| KnowledgeBase.StaysFresh | netlify/functions/chat-gemini.js:255-257 | while the cached text is fresh, every call returns that same text, makes no fetch and leaves the cache unchanged |
| KnowledgeBase.AtMostOneFetchPerWindow | netlify/functions/chat-gemini.js:252-270 | calls in clock order within one 300000 ms window, against a server that always returns a non-empty document no earlier than it was asked for, make at most one fetch whatever the cache held before; when the first call of the window misses, every call of the window returns the body that call stored |
| KnowledgeBase.StaleCacheChangesTextWithinWindow | netlify/functions/chat-gemini.js:255-268 | why the window lemma needs its first call to miss: a text cached at 0 is served at 299999 and replaced by a new fetch at 300001, so one window returns two texts |
| KnowledgeBase.EmptyBodyMissesNext | netlify/functions/chat-gemini.js:255-270 | an empty received body is stored, and the next call still misses and fetches |
| KnowledgeBase.WindowOpensWhenFetchCompletes | netlify/functions/chat-gemini.js:255-268 | the window is measured from the arrival of the body: a body asked for at 0 and arriving at 1000 is still served, without a fetch, at 300500 |
| KnowledgeBase.ExpiresAtWindowEnd | netlify/functions/chat-gemini.js:252-255 | at exactly 300000 ms after the load the cache is a miss; one millisecond earlier a non-empty cache is a hit |
| KnowledgeBase.KnowledgeCache.constructor | netlify/functions/chat-gemini.js:250-251 | a cold start has a `null` cache and load time 0 |
| KnowledgeBase.KnowledgeCache.Load | netlify/functions/chat-gemini.js:254-275 | `loadKnowledgeBase`: returns the text, whether it fetched, and the new values of both fields exactly as `LoadSpec` gives them from the old ones |
| Conversation.SystemContext | netlify/functions/chat-gemini.js:317-323 | the system context is the fixed prefix, then the knowledge text, then the fixed suffix; the knowledge text can be read back from it |
| Conversation.SystemContextInjective | netlify/functions/chat-gemini.js:317-323 | different knowledge texts give different system contexts |
| Conversation.ToTurn | netlify/functions/chat-gemini.js:331-334 | a history entry keeps its text and has role user exactly when its role is the string "user", model otherwise |
| Conversation.Normalise | netlify/functions/chat-gemini.js:331-334 | the normalised history has one turn per entry, in order, each with its entry's text and the normalised role |
| Conversation.Contents | netlify/functions/chat-gemini.js:328-336 | the contents have length of the history plus 3: the system context as a user turn, the greeting as a model turn, entry i of the history at index i+2 with its text and normalised role, and the message as the last user turn |
| Handler.Authorised | netlify/functions/chat-gemini.js:294-295 | a token is accepted only if it is non-empty and equal to the configured token, so an unset or empty configured token accepts nothing |
| Handler.Gate | netlify/functions/chat-gemini.js:279-313 | OPTIONS if and only if 200 with no body; a method other than OPTIONS and POST if and only if 405 "Método no permitido"; a POST with a missing, empty or wrong token if and only if 401; an authorised POST with an unparsable body if and only if 500 with the parse error's message; an authorised parsed POST with a missing or empty message if and only if 400; only the remaining requests proceed, with their message and history |
| Handler.UnsetTokenRejectsEveryPost | netlify/functions/chat-gemini.js:294-301 | with no configured token every POST gets 401 |
| Handler.TokenCheckedBeforeBody | netlify/functions/chat-gemini.js:294-305 | a POST refused for its token gets the same response whatever its body |
| Handler.Answer | netlify/functions/chat-gemini.js:328-353 | after the load, the answer is 200 with the model's reply exactly when the history is a list and the model produced a reply for the assembled contents; otherwise 500 with the thrown error's message |
| Handler.Handle | netlify/functions/chat-gemini.js:277-354 | every response carries the CORS headers; a request stopped by the checks gets the gating response, leaves the cache unchanged and calls no model; a valid request changes the cache exactly as one load does, hands the model the contents built from the loaded text when `history` is an array (and nothing otherwise), and answers as `Answer` does |

## Left out

- The older handler variant in lines 1-232 is commented out and never runs, so its keyword-matched fallback replies and its 200-on-failure policy are not modelled.
- The language-model SDK (`GoogleGenerativeAI`, the model name, `generateContent`, `response.text()`) is a foreign library; it is a function parameter returning a reply or a thrown message.
- `fetch`, `response.text()` and the choice of URL from `NODE_ENV` and `URL` are network I/O and configuration; only their outcome is a parameter. The fetched body is not distinguished by HTTP status because the code does not look at it.
- `JSON.parse` and `JSON.stringify` are not modelled: the body arrives already parsed (or as the parse error's message) and the response body is a datatype.
- A `message` that parses to a truthy non-string value (a number, an object) is not modelled; falsy values (`null`, `false`, `0`, `""`) are all the absent message.
- History entries with missing `role` or `content` fields are not modelled; entries are pairs of strings. A `null` entry, on which `m.role` throws inside `history.map`, is covered by the `NotAList` case, which gives the same 500 with the thrown message.
- `Date.now()` is read twice by the loader; the two readings are the parameters `now` and `loadedAt`. Reading the environment variables is the parameter `configured`.
- Console logging, and the CORS header object beyond being the same constant map on every response.
- Races on the module-level cache between overlapping invocations of a warm instance: concurrency is out of scope, and the cache is modelled as one object used by one call at a time.
- A missing `event.headers` object, which would throw outside the handler's `try`, does not occur for requests from the hosting platform and is not modelled.
