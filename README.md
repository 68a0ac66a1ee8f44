# BlockForge: block geometry, route guard and error page

BlockForge is a construction-set editor: users place LEGO-like blocks in 3D
space and join them at snap points. In the repository, the scene-graph engine
exists only as type declarations. The parts with real behaviour are three
small, pure pieces, and this project models and proves them:

- **Box geometry** (`application/mock/mockData.ts`).
  - `calculateBounds` gives a block's bounding box, centred on the origin.
  - `generateSnapPoints` gives its ten default snap points: eight corners and
    the top and bottom face centres.
  - The `mockBlocks` catalogue derives each entry's bounds and snap points
    from that entry's own dimensions.
  - Module `Geometry` covers the two helpers and module `MockBlocks` the
    catalogue. Lengths are `real`: the helpers only halve and negate, and
    IEEE doubles do both exactly away from underflow.
- **Route guard** (`ProtectedRoute.tsx`), module `ProtectedRoute`.
  - A user who is not connected gets the 401 error page.
  - A connected user who is not authorized gets the 403 page.
  - Otherwise the protected children are returned unchanged.
- **Error page content** (`ErrorPage.tsx`), module `ErrorPage`.
  - Each property left undefined takes its default.
  - The title and the message follow JavaScript `||` chains over fixed
    tables.
  - The back button either calls `onBack` or navigates to `/`.
  - The page is modelled as the content it shows plus the action its button
    triggers.
  - Module `JsKeys` holds the decimal-string form of numbers. A record
    indexed by `404` reads the same entry as one indexed by `"404"`.

Snap-point ids come from `Math.random` in the source. Here they are a
parameter: the ten ids, in call order. The model proves only that they are
passed through in order.

## Model

| member | source | states |
|---|---|---|
| `Geometry.CalculateBounds` | application/mock/mockData.ts:99-105 | The box is symmetric about the origin: `min` is the negation of `max`. The center is (0,0,0), the size is (width, height, depth), and on every axis `max - min` equals the size. |
| `Geometry.BoundsOrdered` | application/mock/mockData.ts:100-102 | For non-negative dimensions, `min <= max` on every axis and the box contains the origin. |
| `Geometry.GenerateSnapPoints` | application/mock/mockData.ts:16-97 | Exactly ten points. Point `i` carries the `i`-th id. Indices 0-7 are corners and 8-9 are centres. All are enabled, with no constraints, colour, size or lock. |
| `Geometry.CornerLayout` | application/mock/mockData.ts:22-80 | Corner `i` takes its x sign from bit 0 of `i`, z from bit 1 and y from bit 2, so corners 0-3 sit at y = -h/2 and 4-7 at y = +h/2. Its normal is (±1,0,0) with the sign of its x. |
| `Geometry.CornersAreSignCombinations` | application/mock/mockData.ts:23-80 | The set of corner positions equals the set of the eight sign combinations (±w/2, ±h/2, ±d/2). |
| `Geometry.CornerNormalFollowsX` | application/mock/mockData.ts:24-79 | For width ≠ 0, a corner's normal is (1,0,0) exactly when its x is +w/2, and (-1,0,0) exactly when its x is -w/2. Its y and z play no part. |
| `Geometry.FaceCentres` | application/mock/mockData.ts:81-95 | Index 8 is at (0, h/2, 0) with normal (0,1,0). Index 9 is at (0, -h/2, 0) with normal (0,-1,0). |
| `Geometry.SnapPointsWithinBounds` | application/mock/mockData.ts:17-105 | For non-negative dimensions, every snap point lies in the box from `CalculateBounds` of the same dimensions, and every normal is a unit axis vector. |
| `MockBlocks.EntriesAreWellFormed` | application/mock/mockData.ts:115-685 | `Entries` holds the ten literals as written. Each is in millimetres with positive dimensions, and both its `calculateBounds` and its `generateSnapPoints` arguments repeat its recorded dimensions. Entry ids are distinct. |
| `MockBlocks.Build` | application/mock/mockData.ts:124-166 | The block an entry denotes has the entry's id, name, category and dimensions, geometry type box and origin (0,0,0). Its bounds' size is the `calculateBounds` arguments, and it has ten snap points carrying the supplied ids in order. |
| `MockBlocks.BuildDerived` | application/mock/mockData.ts:124-166 | An entry whose bounds and snap-point arguments repeat its recorded dimensions builds a block whose bounds and snap points are those the dimensions give. |
| `MockBlocks.Catalogue` | application/mock/mockData.ts:110-686 | Ten blocks, in the order and with the ids of the entries, all of geometry type box. |
| `MockBlocks.DerivedBlockIsConsistent` | application/mock/mockData.ts:17-105 | Take a block derived from non-negative dimensions. Its snap points all lie in its bounds and face along one axis, and its corners are the box's eight corners. |
| `MockBlocks.CatalogueIsConsistent` | application/mock/mockData.ts:110-686 | Every catalogue block is in millimetres with positive dimensions, and block ids are distinct. Each block's bounds and snap points derive from its own dimensions, and every snap point lies within its bounds. |
| `JsKeys.NatToDecimal` | blockForge-ui/components/ErrorPage/ErrorPage.tsx:38-39 | The property key of a natural number is a non-empty digit string. That it reads back to the number is `NatToDecimalRoundTrip`. |
| `JsKeys.IntToDecimal` | blockForge-ui/components/ErrorPage/ErrorPage.tsx:38-39 | The key of an integer is non-empty, starts with '-' exactly when the integer is negative, and is digits otherwise. `DecimalRoundTrip` and `DecimalInjective` give its inverse and its injectivity. |
| `JsKeys.NatToDecimalRoundTrip` | blockForge-ui/components/ErrorPage/ErrorPage.tsx:24-31 | The decimal key of a natural number is a non-empty digit string, and reading it back gives the number. |
| `JsKeys.DecimalRoundTrip` | blockForge-ui/components/ErrorPage/ErrorPage.tsx:24-31 | Reading back the decimal key of any integer gives the integer. |
| `JsKeys.DecimalInjective` | blockForge-ui/components/ErrorPage/ErrorPage.tsx:24-31 | Two integers have the same key if and only if they are equal. |
| `JsKeys.DecimalShape` | blockForge-ui/components/ErrorPage/ErrorPage.tsx:38-39 | An integer's key starts with a digit or '-', and every later character is a digit. |
| `ErrorPage.Key` | blockForge-ui/components/ErrorPage/ErrorPage.tsx:38-39 | The key `defaultTitles[errorCode]` and `defaultMessages[errorCode]` read: a string code is its own key, and a numeric code's key is a decimal numeral that parses back to the code. |
| `ErrorPage.FallbackChain` | blockForge-ui/components/ErrorPage/ErrorPage.tsx:38-39 | `given \|\| table[key] \|\| fallback`: a truthy given string wins, then a non-empty table entry, then the fallback. The empty string counts as absent, and the result is non-empty when the fallback is. |
| `ErrorPage.ErrorTitle` | blockForge-ui/components/ErrorPage/ErrorPage.tsx:24-38 | The resolved title is never empty. It reads the table's own entries only; see Findings. |
| `ErrorPage.ErrorMessage` | blockForge-ui/components/ErrorPage/ErrorPage.tsx:31-39 | The resolved message is never empty. It reads the table's own entries only; see Findings. |
| `ErrorPage.HandleBack` | blockForge-ui/components/ErrorPage/ErrorPage.tsx:41-47 | The action calls the given `onBack` exactly when one is provided, and otherwise navigates to "/". Exactly one of the two happens. |
| `ErrorPage.Render` | blockForge-ui/components/ErrorPage/ErrorPage.tsx:14-68 | The code defaults to 404 only when omitted. Title and message come from their chains. The button shows unless `showBackButton` is explicitly false. Its text defaults to "Retour à l'accueil" only when omitted, and its click is `HandleBack`. Title and message read the tables' own entries only; see Findings. |
| `ErrorPage.RenderDefaults` | blockForge-ui/components/ErrorPage/ErrorPage.tsx:14-39 | With no properties: code 404, the page-not-found title and message, and a "Retour à l'accueil" button that navigates to "/". |
| `ErrorPage.DefaultsOnlyForUndefined` | blockForge-ui/components/ErrorPage/ErrorPage.tsx:15-39 | An explicit empty button text is kept. An empty title or message renders the same page as an omitted one. |
| `ErrorPage.KnownNumericKeys` | blockForge-ui/components/ErrorPage/ErrorPage.tsx:24-36 | A numeric code has a default title, and a default message, if and only if it is 401, 403, 404 or 500. |
| `ErrorPage.UnknownNumericCodeIsGeneric` | blockForge-ui/components/ErrorPage/ErrorPage.tsx:24-39 | A numeric code outside {401, 403, 404, 500} gets the generic title and message unless truthy explicit ones are given. |
| `ErrorPage.StringFormSelectsSameDefaults` | blockForge-ui/components/ErrorPage/ErrorPage.tsx:24-39 | Each known code resolves to the same title and message as a number and as its string, and these are the table's entries when no truthy explicit value is given. |
| `ErrorPage.JsIndex` | blockForge-ui/components/ErrorPage/ErrorPage.tsx:38-39 | Indexing an object literal, as written: an own entry is read first. Otherwise a key names a value exactly when it is an inherited `Object.prototype` member, and the value is that member. |
| `ErrorPage.ErrorTitleAsWritten` | blockForge-ui/components/ErrorPage/ErrorPage.tsx:24-38 | The title as written: a truthy explicit title wins. Otherwise a string code naming an inherited member yields that member, not a string. |
| `ErrorPage.ErrorMessageAsWritten` | blockForge-ui/components/ErrorPage/ErrorPage.tsx:31-39 | The message as written: a truthy explicit message wins. Otherwise a string code naming an inherited member yields that member, not a string. |
| `ErrorPage.FallbackChainAsWritten` | blockForge-ui/components/ErrorPage/ErrorPage.tsx:38-39 | As written, the chain also reads inherited `Object.prototype` members. For every other key it agrees with `FallbackChain`. |
| `ErrorPage.PrototypeCodeYieldsNonText` | blockForge-ui/components/ErrorPage/ErrorPage.tsx:24-38 | Take any inherited `Object.prototype` name as the code ("toString" gives a function, "__proto__" an object), with no truthy explicit title or message. As written, both title and message are that inherited value and differ from every text. The corrected title and message are the generic ones. |
| `ErrorPage.AsWrittenAgreesOffPrototype` | blockForge-ui/components/ErrorPage/ErrorPage.tsx:24-39 | For every numeric code, and every string code that is not an inherited name, the code as written yields the same text as the corrected lookup. |
| `ProtectedRoute.Guard` | blockForge-ui/components/ProtectedRoute/ProtectedRoute.tsx:10-30 | Children are returned, unchanged, if and only if the user is connected and authorized. Any error page carries code 403 if connected and 401 otherwise. |
| `ProtectedRoute.NotConnectedShows401` | blockForge-ui/components/ProtectedRoute/ProtectedRoute.tsx:13-19 | Not connected, whatever the authorization: the page shows 401, "Non connecté", the 401 message and a button home. The explicit title overrides the table's "Non autorisé". |
| `ProtectedRoute.ConnectionCheckFirst` | blockForge-ui/components/ProtectedRoute/ProtectedRoute.tsx:13-27 | Not connected but authorized still yields 401 and never 403 or its title. |
| `ProtectedRoute.NotAuthorizedShows403` | blockForge-ui/components/ProtectedRoute/ProtectedRoute.tsx:21-27 | Connected but not authorized: the page shows 403, "Accès refusé" and the permissions message, which equal the table's 403 entries. |
| `ProtectedRoute.AuthorizedShowsChildren` | blockForge-ui/components/ProtectedRoute/ProtectedRoute.tsx:29 | Connected and authorized: the children themselves are returned, and no error title is shown. |
| `ProtectedRoute.ThreeWayDecision` | blockForge-ui/components/ProtectedRoute/ProtectedRoute.tsx:10-30 | No error title appears if and only if the user is connected and authorized. "Non connecté" appears if and only if not connected. "Accès refusé" appears if and only if connected but not authorized. |

## Left out

- The scene-graph engine (snap resolution, layers, connections, history, transforms) is declared as types only. No code implements any of its operations, so there is nothing to model.
- `generateId` is random. Snap-point ids are caller-supplied values, and the model asserts nothing about their uniqueness.
- ErrorPage.Key: only integer-valued numeric codes are modelled. A fractional or NaN code never matches the integer keys, and falls to the generic texts in the source too.
- ErrorPage.Key: integers of magnitude 10^21 or more print in exponent form in JavaScript. The model prints them in full decimal. Neither form matches a table key, so the resolved texts agree.
- Fixture metadata (volume, weight, dimension text), the mock instances, projects, users and subscriptions are hand-written constants with nothing derived, so they are not modelled.
- Fixture dimensions are exact decimals in the model. The source's doubles for 9.6, 3.2 and 19.2 are the nearest binary values, and halving them is exact, so the bounds and snap positions correspond.
- Rendering (Typography, Button, the page layout), `useNavigate` and the docking layouts are UI library calls. Navigation is only the `NavigateTo` action tag, and calling `onBack` is only the `CallOnBack` tag.
- Header, Router, the App files, the layout configurations and the page components are static configuration or rendering with no logic.

## Findings

| source | as written | input that shows it | evidently intended | confidence | as-written member | corrected member |
|---|---|---|---|---|---|---|
| blockForge-ui/components/ErrorPage/ErrorPage.tsx:24-39 | `defaultTitles[errorCode]` and `defaultMessages[errorCode]` index plain object literals, so they also read members inherited from `Object.prototype` (modelled by `JsIndex`, `ErrorTitleAsWritten`, `ErrorMessageAsWritten`) | `errorCode = "toString"` gives a function as title and message. `errorCode = "__proto__"` gives an object, which React cannot render. | codes without an own table entry get the generic title and message | not executed | `ErrorPage.PrototypeCodeYieldsNonText` | `ErrorPage.ErrorTitle` |
