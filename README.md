# Portfolio page script: repository feed and theme switch

This project models two pieces of the client-side script of a personal
portfolio page (`script.js`) and proves what they promise.

- **The repository feed** (`fetchGitHubProjects`). The GitHub API returns a
  list of repositories. The script drops forks, the site's own repository
  `RaeXp917.github.io` and the profile repository `RaeXp917`, and keeps the
  first four. It turns each kept repository into a card and appends the cards,
  in order, to the `project-grid` element. A card has a title (the name with
  every `-` replaced by a space), a body (the description, or
  `No description provided.`), a language label (the language, or `N/A`), a
  link, and the id `project-e-efimerevon` when the lower-cased name contains
  `pharmacy`. When the grid is missing, nothing happens. When the fetch fails,
  the status is not OK or the body does not parse, the error is caught and
  the grid stays as it was.
- **The theme switch.** The state is whether the body has the `light-theme`
  class, whether the `theme-toggle` checkbox is checked, and the `theme`
  entry of local storage. `applyTheme` turns both on for `"light"` and both off
  for any other value. Startup applies the stored theme, with `"dark"` as the
  default. The toggle's `change` handler makes the class follow the checkbox
  and stores `"light"` or `"dark"`.

Files:
- `wrappers.dfy`: `Option`.
- `text.dfy`: the string built-ins the script uses: `replace(/-/g, ' ')`,
  `toLowerCase`, `includes` (with an independent definition by occurrence index)
  and `||` on an optional string.
- `projects.dfy`: `Repo`, `Card`, `Response`, the pure filter / slice /
  card pipeline, and the `Grid` class with the `forEach` append loop.
- `theme.dfy`: the `ThemeSwitch` class and its three operations.

The network call is replaced by its outcome, the `Response` datatype: a
rejected `fetch` is `NetworkError`, and a response carries its `ok` flag and
its body. A body of `None` means `response.json()` rejected or returned
something that is not a list. The "no grid" case is a `null` grid.
A page without a `theme-toggle` element is a `ThemeSwitch` whose `hasToggle`
is false. In that case the change handler is never registered, so `OnChange`
requires `hasToggle`.

In this version of the script the grid is not cleared before rendering. The
cards are appended after whatever the grid already holds, and the model
follows that.

## Model

| member | source | states |
|---|---|---|
| `Projects.Filter` | script.js:64-68 | every kept repository comes from the input, is not a fork, and is named neither `RaeXp917.github.io` nor `RaeXp917`; every such input repository is kept |
| `Projects.FilterAppend` | script.js:64-68 | filtering works piece by piece, so it keeps the input order |
| `Projects.Take` | script.js:70 | `slice(0, n)` is a prefix of the list, of length `min(n, length)` |
| `Projects.ProjectsToShow` | script.js:64-70 | at most 4 repositories, exactly `min(4, filtered count)`, a prefix of the filtered list, each one listed |
| `Projects.CardId` | script.js:74-79 | the id is present exactly when the lower-cased name contains `pharmacy` somewhere, and it is then `project-e-efimerevon` |
| `Projects.ToCard` | script.js:74-87 | the title has the name's length, a space wherever the name has `-`, the other characters unchanged, and no `-`; the body is the description, or the fallback when it is missing or empty; the same for the language label with `N/A`; neither is empty; the link is `html_url`; the id is as for `CardId` |
| `Projects.Cards` | script.js:72-92 | one card per repository, in order, card `i` made from repository `i` |
| `Projects.Appended` | script.js:54-97 | no card on a failed fetch, a non-OK status or an unparsable body; otherwise exactly `min(4, filtered count)` cards, card `i` made from the `i`-th listed repository |
| `Projects.Grid.constructor` | script.js:52 | the grid starts with the cards the page holds |
| `Projects.Grid.InsertBeforeEnd` | script.js:91 | the card is added after the existing cards, which are unchanged |
| `Projects.Grid.InsertAll` | script.js:72-92 | the loop appends the cards of the shown repositories in order after the grid's existing cards |
| `Projects.FetchGitHubProjects` | script.js:54-97 | with no grid nothing changes; otherwise the grid's new cards are its old cards followed by `Appended(response)`, which leaves the grid as it was on every failure path |
| `Text.ReplaceHyphens` | script.js:84 | same length, `-` becomes a space, other characters unchanged, no `-` left |
| `Text.LowerAscii` | script.js:77 | same length, A-Z mapped to a-z, other characters unchanged, no upper-case ASCII letter left |
| `Text.Or` | script.js:85-86 | the JavaScript logical-or fallback, also used for the stored theme at script.js:31: a present, non-empty value is returned as is; a missing or empty one gives the fallback; the result is never empty when the fallback is not |
| `Text.Includes` | script.js:77 | true exactly when the pattern occurs at some index of the string |
| `Theme.SavedTheme` | script.js:31 | `"dark"` when nothing or the empty string is stored; the stored value when it is non-empty; `"light"` exactly when `"light"` is stored; never empty |
| `Theme.ThemeName` | script.js:36 | `"light"` exactly when checked, `"dark"` otherwise |
| `Theme.ThemeSwitch.constructor` | script.js:18-19 | the page state before the script runs |
| `Theme.ThemeSwitch.ApplyTheme` | script.js:21-29 | the light class is on exactly for `"light"`; the toggle (when present) matches it; storage unchanged |
| `Theme.ThemeSwitch.Startup` | script.js:31-32 | the light class and the toggle are on exactly when `"light"` is stored; storage unchanged |
| `Theme.ThemeSwitch.OnChange` | script.js:34-39 | the light class equals `checked`; the stored value is `"light"` exactly when checked, `"dark"` otherwise |
| `Theme.ReloadRestoresTheme` | script.js:21-39 | after the toggle is set and the change handler runs, a reload with the same storage shows that theme on the body and on the toggle, whatever class and checkbox state either load starts from |
| `Theme.StartupWithoutSavedTheme` | script.js:31-32 | with nothing stored, startup leaves the light class off and the toggle unchecked, and without a toggle leaves its state alone, as `applyTheme("dark")` does |

## Left out

- The `fetch` request, HTTP status codes other than the `ok` flag, and JSON parsing. These are network I/O; their outcome is the `Response` input.
- The text of the thrown error and the `console.error` log (script.js:60, 95). They leave no trace in the page.
- The HTML template, its escaping, and how `insertAdjacentHTML` parses it. A card is a record.
- Repository records whose `name` is not a string. In the script such a record makes `toLowerCase` throw inside the loop (script.js:77), after the earlier cards were already appended. The model types `name` as a string.
- Records whose `html_url`, `description` or `language` is not a string, or whose `fork` is not a boolean. The script passes these through JavaScript's string conversion (a `null` link becomes the text `null`) or truthiness tests. The model types these fields as strings, optional strings and a boolean.
- `Text.LowerAscii`: it lower-cases only A-Z, where `toLowerCase` follows Unicode. For the keyword `pharmacy` the containment test gives the same answer. The only non-ASCII characters that lower-case into ASCII are U+212A (to `k`) and U+0130 (to `i` plus a combining dot), and neither `k` nor `i` occurs in `pharmacy`.
- The scroll fade-in observer (script.js:4-15) and the preloader (script.js:43-48). They are browser callbacks with no logic to state.
- The skill-link handler (script.js:100-125) and the `.then` that runs it after the feed (script.js:128-130). This is a DOM lookup by id, a scroll and a timed highlight.
- `localStorage` persistence across real page loads. It is one field of `ThemeSwitch`, and a reload is a new `ThemeSwitch` built with the same stored value.
