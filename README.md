# Portfolio site content layer: verified model of the state store and the content post-processing

The site fetches its content (projects, contact, about, awards, manifesto, info and partners) from a
content-management API at startup. It post-processes some of that text and writes everything into
one Vuex state store that the views read. This project models the two pieces of that layer that hold
logic, and proves properties of them in Dafny:

- **The state store** (`src/store/index.ts`), in `store.dfy` (module `Store`).
  - `State` is a snapshot of the store's record.
  - `Mutation` and `Apply` say what each named mutation does to a snapshot, and `ApplyAll` commits a
    sequence of mutations.
  - `StateStore` is the record itself, as a class with one field per property. It has one method per
    mutation. Each method's `modifies` frame names only the fields the mutation assigns. Each method
    ties the new snapshot to `Apply` of the old one.
  - The primary tag list is a `seq<string>` field that the methods reassign. `indexOf` and
    `splice(i, 1)` become the functions `IndexOf` and `Splice`.
  - The `console.error` of a failed tag removal is the `logged` result of `TagsListRemoveTag`.
- **Content post-processing** (`src/main.ts`), in `postprocess.dfy` (module `PostProcess`).
  - The `link_open` renderer rule edits a token's attribute list in place. `Token` is a class whose
    `attrs` field is an optional sequence of (name, value) pairs. `None` stands for markdown-it's
    `null` list. `Rewrite` is the rule as a function on that list, and `LinkOpen` is the in-place rule.
  - The description pass of `getProjects` is `RenderDescriptions`. It runs over an `array<Project>`,
    and the Markdown renderer is an uninterpreted `render: string -> string` parameter.
- **The API's payload shapes** (`src/api/index.ts`) are datatypes in `api.dfy` (module `Api`).
  `Option` is in `wrappers.dfy`.

Assumptions about the markdown-it and JavaScript library calls the code makes:

- markdown-it's `attrIndex(name)` returns the index of the first attribute with that name. It
  returns -1 when there is none or when the attribute list is `null`.
- markdown-it's `attrPush(attr)` appends the attribute, creating the list when it is `null`.
- `Array.prototype.indexOf` returns the first position or -1.
- `splice(i, 1)` removes the element at `i`.

Two behaviours of the code are easy to miss:

- Adding a primary tag has no duplicate check, so the same tag can be active twice.
  `RemoveAfterDuplicateAdd` shows what removal then does: the earlier copy goes.
- The two width flags are not always complementary. Both are `false` in the initial state, and
  exactly one is set only after the first `updateScreenWidth` (`WidthFlagsFromInitial`).

## Model

| member | source | states |
|---|---|---|
| `Store.InitialState` | src/store/index.ts:62-82 | The initial record has no projects, no active tags, no secondary selection, and no contact, info or home images. Its width flags are exclusive but not complementary, since both are unset. |
| `Store.IndexOf` | src/store/index.ts:95 | The result is -1 exactly when the tag is absent. Otherwise it is a position holding the tag with no earlier occurrence, so it is the first one. |
| `Store.Splice` | src/store/index.ts:96 | The result is one shorter. Entries before `i` keep their positions, and entries after `i` move down by one. |
| `Store.RemoveTag` | src/store/index.ts:95-96 | Removing an absent tag leaves the list unchanged. Removing a present tag makes the list one shorter and takes out exactly one copy of the tag. |
| `Store.RemoveLogs` | src/store/index.ts:95-97 | The removal logs an error exactly when the tag is not in the list. |
| `Store.Toggle` | src/store/index.ts:104-107 | The new secondary selection is either none or the toggled tag. It is none exactly when the toggled tag was already the selection. |
| `Store.Apply` | src/store/index.ts:84-137 | No mutation makes both width flags true. `updateScreenWidth` sets mobile to `width < 900` and makes the flags complementary. Every other mutation leaves both flags, and (except toggle) the secondary selection, as they were. Only the two tag-list mutations change the primary tag list. |
| `Api.Truthy` | src/main.ts:70 | A description is truthy exactly when it is neither absent nor the empty string, the JavaScript falsy cases a string property can take. |
| `Store.AddTagAppends` | src/store/index.ts:91-93 | Adding a tag grows the primary list by one, keeps every earlier entry, and puts the tag last. This holds even when the tag is already present. |
| `Store.AddTagsInOrder` | src/store/index.ts:91-93 | Committing adds for `ts` in order leaves the old list followed by `ts`, with insertion order kept. |
| `Store.AddTagsFromInitial` | src/store/index.ts:62-93 | From the initial store, N adds leave exactly those N tags active, in the order they were added. |
| `Store.RemoveTagPresent` | src/store/index.ts:94-96 | Removing a present tag logs nothing. It removes exactly the first occurrence, and the rest of the list stays in order. |
| `Store.RemoveTagMultiset` | src/store/index.ts:94-96 | Removing a present tag takes out exactly one copy of it and keeps every other entry. |
| `Store.RemoveTagAbsent` | src/store/index.ts:94-97 | Removing an absent tag logs an error and leaves the list unchanged. It does not fail. |
| `Store.RemoveUndoesAdd` | src/store/index.ts:91-96 | For a tag that is not active, removing it right after adding it restores the list. |
| `Store.RemoveAfterDuplicateAdd` | src/store/index.ts:91-96 | For a tag that is already active, add-then-remove drops the earlier copy and keeps the new one at the end. The multiset of tags is unchanged. |
| `Store.ToggleTwice` | src/store/index.ts:104-107 | Toggling the same tag twice restores a selection that was none or that tag. |
| `Store.ScreenWidthBoundary` | src/store/index.ts:130-137 | Width 899 gives mobile and not desktop. Width 900 gives desktop and not mobile. |
| `Store.InitialStateIsEmpty` | src/store/index.ts:62-82 | In the initial state every collection is empty, every nullable field is null and the menu is closed. Both width flags are false, so they are exclusive but not complementary. |
| `Store.WidthFlagsStayExclusive` | src/store/index.ts:84-137 | Over any sequence of mutations, the width flags are never both true. |
| `Store.WidthFlagsComplementaryAfter` | src/store/index.ts:84-137 | After any sequence of mutations, exactly one width flag is set iff that already held before or the sequence reported the screen width at least once. |
| `Store.WidthFlagsFromInitial` | src/store/index.ts:62-137 | From the initial state, the flags stay exclusive. They are complementary exactly when some `updateScreenWidth` has been committed. |
| `Store.StateStore.constructor` | src/store/index.ts:62-82 | A new store holds the initial state and satisfies the width-flag invariant. |
| `Store.StateStore.UpdateProjects` | src/store/index.ts:84-86 | Replaces `projects` with the argument. Its frame allows no other field to change. |
| `Store.StateStore.UpdateTags` | src/store/index.ts:88-90 | Replaces `tags` with the argument. No other field changes. |
| `Store.StateStore.TagsListAddTag` | src/store/index.ts:91-93 | The primary list becomes the old list plus the tag at the end. No other field changes. |
| `Store.StateStore.TagsListRemoveTag` | src/store/index.ts:94-98 | Logs exactly when the tag was absent, and then leaves the list unchanged. Otherwise the list is one shorter and has one copy of the tag fewer. No other field changes. |
| `Store.StateStore.UpdateSecondaryTags` | src/store/index.ts:100-102 | Replaces `secondaryTag` with the argument. No other field changes. |
| `Store.StateStore.ToggleSecondaryTagActivated` | src/store/index.ts:104-107 | Clears the selection when it was the toggled tag, and selects the tag otherwise. No other field changes. |
| `Store.StateStore.UpdateContact` | src/store/index.ts:109-111 | Sets `contact` to the argument. No other field changes. |
| `Store.StateStore.UpdateAbout` | src/store/index.ts:112-114 | Sets `about` to the argument. No other field changes. |
| `Store.StateStore.UpdateAward` | src/store/index.ts:115-117 | Sets `award` to the argument. No other field changes. |
| `Store.StateStore.UpdateInfo` | src/store/index.ts:118-120 | Sets `info` to the argument. No other field changes. |
| `Store.StateStore.UpdateManifesto` | src/store/index.ts:121-123 | Sets `manifesto` to the argument. No other field changes. |
| `Store.StateStore.UpdateTheyWorkWithUs` | src/store/index.ts:124-126 | Sets `theyWorkWithUs` to the argument. No other field changes. |
| `Store.StateStore.UpdateHomeImages` | src/store/index.ts:127-129 | Sets `homeImages` to the argument. No other field changes. |
| `Store.StateStore.UpdateScreenWidth` | src/store/index.ts:130-137 | Mobile iff the width is strictly below 900, and desktop is the negation of mobile. Only the two flags change, and the invariant is kept. |
| `PostProcess.IndexOfName` | src/main.ts:38 | The result is -1 exactly when no attribute has the name. Otherwise it is the position of the first attribute with that name. |
| `PostProcess.AttrList` | src/main.ts:38-41 | A null attribute list reads as the empty list, and a present list reads as itself. |
| `PostProcess.FirstAttrIndex` | src/main.ts:38 | `attrIndex` on a possibly null list. The result is -1 when the list is null. Otherwise it is the first position of an attribute with the name, or -1 when there is none. |
| `PostProcess.Token.AttrIndex` | src/main.ts:38 | Reads the token's list. The result is -1 iff no attribute has the name. Otherwise it points at an attribute with that name, and no earlier attribute has it. |
| `PostProcess.Token.AttrPush` | src/main.ts:41 | The list becomes the old list (empty when null) with the attribute appended. |
| `PostProcess.Rewrite` | src/main.ts:38-46 | The rule always leaves a list. It grows by at most one attribute, and it keeps every existing attribute except the first `target`. It always contains `("target", "_blank")`. |
| `PostProcess.RewriteAppendsWhenAbsent` | src/main.ts:38-41 | Without a `target` attribute, the rule appends `("target", "_blank")` at the end and keeps every existing attribute unchanged and in place. |
| `PostProcess.RewriteOverwritesWhenPresent` | src/main.ts:38-46 | With a first `target` at `i`, only the value at `i` becomes `_blank`. The name at `i`, the length and every other pair stay the same. |
| `PostProcess.RewriteOpensInNewTab` | src/main.ts:36-47 | After the rule the token has a `target` attribute and the first one says `_blank`. It sits at the old index, or at the end when there was none. |
| `PostProcess.RewriteIdempotent` | src/main.ts:36-47 | Applying the rule twice gives the same list as applying it once. |
| `PostProcess.LinkOpen` | src/main.ts:36-51 | Updates `tokens[idx]` in place to the rewritten list, after which the link opens in a new tab. Only that token changes. |
| `PostProcess.RenderDescription` | src/main.ts:69-72 | A truthy description becomes `render` of the old one. An absent or empty description leaves the project unchanged. No other field of the project ever changes. |
| `PostProcess.RenderDescriptions` | src/main.ts:69-72 | In place over the fetched array, each project becomes its rendered form, rendered once. Length and order are kept. |
| `PostProcess.RenderTwiceDiffers` | src/main.ts:69-72 | Take any renderer and any project with a truthy description `d`. If `render(d)` is non-empty and rendering it again changes it, running the pass twice gives a different project than running it once. This is why the pass must run exactly once per fetch. |

## Left out

- Fetching: `getContent` and the seven `get*` functions (src/main.ts:54-119) are network I/O plus JSON parsing. Their failures are not handled. Only the description loop of `getProjects` is modelled.
- `getInfo`'s rendering of `info.infos` (src/main.ts:109) is part of that fetch code. `Info` is an opaque JSON payload here.
- The Markdown renderer `markdownIt.render` is the `render` parameter. `defaultRender` and `renderToken` are not modelled, so `LinkOpen` models the attribute edit but not the HTML it returns.
- markdown-it tokens carry more fields than `attrs`. Only `attrs` is modelled.
- The attribute pairs are mutable arrays shared with the token. The model replaces the list as a value, so aliasing of a pair is not captured. In the same way, the project objects are datatype values in an array, so aliasing between project objects is not captured.
- The framework wiring is not modelled: `createStore`, `store.commit` dispatch, the injection key, `createApp`, the router and the service worker. `Apply` stands in for a commit.
- `console.log` and the text of `console.error` are not modelled. Only the fact that an error is logged is modelled.
- `screenWidth` is a JavaScript `number`, modelled as a `real`. NaN and the infinities are not modelled. NaN would compare as not below 900 and so give desktop.
- Identifiers and pixel sizes are JSON numbers, modelled as `int`. Fractional values are not modelled.
- The interfaces `IApiContact`, `IApiAbout`, `IApiExhibitionsAndAwards`, `IApiManifesto`, `IApiInfo`, `IApiTheyWorkWithUs`, `IApiHomeImage`, `IApiTags` and `ISecondTags` are not part of this model. Their payloads are carried as opaque JSON values, which the store only stores.
