# Portfolio page renderer, modelled in Dafny

This project models the rendering of a bilingual (French/English) portfolio page. Two renderers are modelled.

- `PortfolioApp` in `js/script.js`:
  - It loads nine HTML fragments into their placeholders and fetches eight JSON content documents.
  - It fills the page from those documents in the current language.
  - It re-renders everything when the language toggle is pressed.
- `renderResume` in `_old/script.js`, the legacy one-shot renderer:
  - It loads five documents. Unless all five loaded, it stops.
  - It then writes the header and appends child elements to four lists.

The model is split into these modules:

- `Json` covers the JSON values the documents hold and the JavaScript semantics the renderers depend on:
  - truthiness and `a || b`;
  - property reads that throw on `null`/`undefined`;
  - `map`/`forEach`/`join` existing only on arrays;
  - `String(v)` and `textContent` assignment.
- `Localization` covers `currentLang`, the toggle, `getLocalizedData` with its French fallback, and the label table behind `translateText`.
- `Markup` holds the pure HTML builders (`createExperienceCard`, `createSkillsHTML`, the education and language items, and so on). Each may throw a TypeError, modelled as `Thrown`.
- `Dom` is the page. It holds:
  - the fixed layout of elements the fragments contain;
  - the content the scripts last wrote into each element;
  - the writes (`textContent`, `innerHTML`, and an animated navigation link).

  `Apply` performs writes in order. `Dom.Document` is the mutable browser document.
- `Render` gives each `render*` method as an *effect*: the writes it performs, in order, and whether it ran to its end or threw.
  - `Then` chains effects the way a throw aborts the rest of a JavaScript method.
  - The lemmas prove that `renderAll` is idempotent.
  - They prove that rendering in French and then in another language leaves exactly the page of rendering in that language directly. This holds because of the French fallback.
  - In the other order it does not hold. A field that has only an English entry keeps its stale English text after switching back to French. The concrete counterexample `EnglishThenFrenchKeepsEnglish` shows this.
- `App` is the `PortfolioApp` class. Every method updates the document in place and is proved to perform exactly the writes of its effect. `loadComponents` and `loadData` take the outcome of each fetch as a parameter.
- `Legacy` is the old renderer as a `ResumePage` class.
  - Its list elements hold the child nodes appended to them.
  - Each section is a loop proved against a step function on a snapshot (`Sheet`). That includes the partial state a throw in the middle of a `forEach` leaves behind.

## Model

| member | source | states |
|---|---|---|
| Json.Truthy | js/script.js:355 | Arrays and objects are always truthy; `false`, `0`, `""`, `null` and `undefined` never are. |
| Json.Or | js/script.js:382 | `a \|\| b` is `a` when `a` is truthy and `b` otherwise; the result is truthy iff either operand is. |
| Json.LengthTestsAgree | js/script.js:409 | On strings and arrays, a truthy `length` and `length > 0` agree, and both mean there is an element or a character. |
| Json.ContainsIffOccurs | js/script.js:537 | `s.includes(t)` on strings holds exactly when `t` occurs at some index of `s`. |
| Json.ContainsInfix | js/script.js:537 | A string occurs within any text built around it. |
| Json.ContainsExtended | js/script.js:537 | An occurrence survives appending text. |
| Json.ContainsPrefixed | js/script.js:537 | An occurrence survives prepending text. |
| Json.ContainsTrans | js/script.js:366 | An occurrence inside an occurrence is an occurrence, so a card's text shows in the joined list. |
| Json.NatToString | js/script.js:452 | The decimal notation of `index * 100` is non-empty, all digits, and has no leading zero. |
| Json.DecimalRoundTrip | js/script.js:452 | Reading back the decimal notation gives the number printed. |
| Json.IntToString | js/script.js:452 | The notation of an integer starts with `-` exactly when it is negative. |
| Json.JoinAppend | _old/script.js:134 | Joining `a + b` is joining `a`, then the separator once, then joining `b`: the separator sits only between parts. |
| Json.ConcatMapAppend | js/script.js:328-330 | `map(f).join('')` over a concatenation is the two joins side by side, which preserves item order. |
| Json.ConcatMapShowsEach | js/script.js:328-330 | Every item's markup occurs in `map(f).join('')`. |
| Json.ConcatMapOrThrow | js/script.js:366 | A map-and-join whose item builder may throw completes exactly when every item completes, and then contains the first item's text. |
| Json.ConcatMapOrThrowAppend | js/script.js:366 | On success, the items of `xs + ys` render as those of `xs` followed by those of `ys`. |
| Json.ConcatMapOrThrowShowsEach | js/script.js:366 | On success, every item completed and its markup occurs in the joined text. |
| Json.ArrayJoin | _old/script.js:134 | Joining a one-string array gives that string. |
| Json.ToStrOfArrayIsJoin | js/script.js:418 | Interpolating an array gives its `join(',')`, and interpolating a string gives the string. |
| Json.TextContentOf | js/script.js:356 | Assigning a string stores it; assigning `null` or `undefined` clears the text. |
| Json.RemoveFirstRemovesOne | js/script.js:449 | `replace('#', '')` removes exactly one `#` when there is one (the length drops by one and the multiset of the other characters is kept), leaves the string alone otherwise, and strips a leading `#`. |
| Localization.Toggled | js/script.js:177 | The toggle always moves to the other language. |
| Localization.ToggleInvolution | js/script.js:177 | Toggling twice restores the language. |
| Localization.ButtonLabel | js/script.js:168-171 | The toggle buttons show `FR` or `EN`, the upper-cased language code. |
| Localization.GetLocalizedData | js/script.js:294-301 | A falsy input gives `''`; strings and arrays pass through; numbers and booleans give `''`; an object gives its entry for the current language if truthy, else its `fr` entry if truthy, else `''`. The result is never nullish. |
| Localization.FallbackLaw | js/script.js:300 | When the current language has no truthy entry, the French text is what shows. |
| Localization.FrenchTruthyImpliesTruthy | js/script.js:300 | A value that renders truthy in French renders truthy in every language. |
| Localization.EnglishOnlyFieldIsEmptyInFrench | js/script.js:300 | An object with only an `en` entry renders as `''` in French. |
| Localization.TranslationsComplete | js/script.js:18-71 | Every label of the built-in table has a non-empty French and English text. |
| Localization.TranslateText | js/script.js:290-292 | A known key gives its label in the current language; an unknown key is returned unchanged. |
| Markup.TypeSpan | js/script.js:401 | The contract-type span is empty exactly when the type is falsy, and shows the type otherwise. |
| Markup.ContextParagraph | js/script.js:387 | The context paragraph is empty exactly when the context is falsy, and shows it otherwise. |
| Markup.CreateExperienceHeader | js/script.js:395-406 | The header names the company, the role and the duration, and contains the type span. |
| Markup.ListItem | js/script.js:415-420 | A list entry shows its item. |
| Markup.CreateListSection | js/script.js:408-424 | The section is empty exactly when the items are no non-empty array; otherwise it contains the translated heading and every item. |
| Markup.TechTag | js/script.js:433-437 | A tech tag shows its technology. |
| Markup.CreateTechStack | js/script.js:426-441 | It throws exactly on a nullish stack or a non-array with a truthy length; it is empty exactly when the length is falsy; otherwise it holds the translated heading and a tag per technology. |
| Markup.ExperienceSections | js/script.js:384-389 | The card sections ahead of the tech stack name the localized company, role and duration. |
| Markup.CreateExperienceCard | js/script.js:374-393 | Building a card throws exactly when the entry is `null`/`undefined` or its `techStack` is a non-array with a truthy `length`; otherwise the card holds the sections immediately followed by the tech stack built from `exp.techStack \|\| []`. |
| Markup.DefaultStackThrows | js/script.js:382-392 | The tech stack built from `techStack \|\| []` throws exactly for a non-array with a truthy `length`. |
| Markup.ExperienceCardShows | js/script.js:374-393 | A built card names the localized company, role and duration. |
| Markup.ExperienceCardInOrder | js/script.js:385-391 | A built card holds, side by side and in this order, the header, the context paragraph, the responsibilities section, the results section and the tech stack. |
| Markup.HeroParagraph | js/script.js:329 | Each hero paragraph shows its text. |
| Markup.HeroDescriptionParagraph | js/script.js:349 | Each description paragraph shows its text. |
| Markup.StatItem | js/script.js:492-502 | A stat card throws exactly for a nullish stat and shows its localized value and label. |
| Markup.AboutSkillItem | js/script.js:508-516 | A skill card throws exactly for a nullish skill and shows its localized title and description. |
| Markup.EducationFacts | js/script.js:533-535 | The facts of an education card show the institution, the localized degree and the year. |
| Markup.EducationMarkup | js/script.js:530-548 | An education card shows its facts, and the WES badge whenever the badge is asked for. |
| Markup.EducationItem | js/script.js:529-549 | An item throws exactly for a nullish entry, or for truthy `badges` that are neither an array nor a string (no `includes`); otherwise it shows the institution, degree and year, and the WES badge whenever `badges` includes `'WES'`. |
| Markup.LanguageItem | js/script.js:566-571 | A row throws exactly for a nullish entry and shows the localized language and level. |
| Markup.CategoryItemValue | js/script.js:667 | Objects are localized; `null` (an object to `typeof`) gives `''`; arrays and primitives pass through. |
| Markup.CategoryTag | js/script.js:665-669 | A category tag shows its item's value. |
| Markup.CreateSkillCategory | js/script.js:658-673 | A falsy category or falsy item count renders nothing; otherwise it throws exactly when the items are no array, and shows every item. |
| Markup.SkillListItem | js/script.js:678-683 | A skill-list entry shows its localized item. |
| Markup.CreateSkillList | js/script.js:675-684 | Empty exactly for a falsy length; throws exactly for a non-array with a truthy length; else one item per entry. |
| Markup.SkillsBlock | js/script.js:630-636 | A technical or methodologies block shows its title heading and its list. |
| Markup.CategoriesBlock | js/script.js:638-644 | The categories grid shows the four categories. |
| Markup.ListsThrowWhenMalformed | js/script.js:675-678 | The technical and methodologies lists throw exactly when their items have a truthy `length` but are no array. |
| Markup.CategoriesThrowWhenMalformed | js/script.js:658-665 | Each of the four categories throws exactly when it is truthy and its items have a truthy `length` but are no array. |
| Markup.SkillsPartsThrowAlike | js/script.js:626-656 | Whether a part of the skills markup throws does not depend on the language. |
| Markup.CreateSkillsHtml | js/script.js:626-656 | Throws exactly when `technical` or `methodologies` is nullish or one of the six parts throws. |
| Markup.SkillsHtmlShowsTechnical | js/script.js:630-636 | The skills markup shows the technical title heading and the technical list. |
| Markup.SkillsHtmlShowsCategories | js/script.js:638-644 | The skills markup holds the frameworks, languages, databases and tools categories side by side, in that order. |
| Markup.SkillsHtmlShowsMethodologies | js/script.js:646-652 | The skills markup shows the methodologies title heading and the methodologies list. |
| Markup.ErrorMarkup | js/script.js:687-690 | The error placeholder names the fragment that failed. |
| Markup.SameCardInputs | js/script.js:374-393 | Two entries that agree on every field the card builder reads, after `\|\| []` and localization, build the same card. |
| Markup.EmptyResultsRenderNothing | js/script.js:388-389 | A card with `results: []` renders exactly as one without results. |
| Markup.NoResultsSection | js/script.js:389 | An empty or missing results list renders no results section. |
| Markup.SameFieldsExcept | js/script.js:374-393 | Cards that agree on every field the builder reads except one read the same on all the others. |
| Markup.MissingTechStackIsEmpty | js/script.js:382 | A missing `techStack` renders exactly as an empty one. |
| Markup.NoWesRendersNoBadge | js/script.js:537-546 | An education entry whose badges lack `'WES'` renders exactly as an entry with the same institution, degree and year and falsy badges. |
| Markup.NoWesItem | js/script.js:537-546 | An education entry that renders without a `'WES'` badge is its facts with no badge markup. |
| Markup.WesEntryShowsBadge | js/script.js:537-546 | A `'WES'` badge always shows the credential badge. |
| Dom.ApplyClosedForm | js/script.js:356 | Performing writes keeps the layout, and every element ends with its last write or keeps its old content. |
| Dom.ApplySnoc | js/script.js:356 | One more write at the end is one more step. |
| Dom.WrittenSnoc | js/script.js:356 | A last write overrides whatever the earlier ones left in its element. |
| Dom.ApplyKeepsLayout | js/script.js:356 | Writing content never changes which elements exist. |
| Dom.WrittenKeys | js/script.js:356 | The elements written are exactly those the writes address. |
| Dom.WrittenAppend | js/script.js:303-312 | For `a` then `b`, `b`'s write wins where both write an element. |
| Dom.ApplyAppend | js/script.js:303-312 | Performing `a` then `b` is performing `a + b`. |
| Dom.Absorb | js/script.js:303-312 | Writes whose elements are all written again later leave no trace. |
| Dom.ApplyIdempotent | js/script.js:303-312 | Performing the same writes twice leaves the page they leave once. |
| Dom.ApplyUntouched | js/script.js:353-358 | An element no write addresses keeps its content. |
| Dom.Document.constructor | js/script.js:118-123 | A document starts with the given page, `main` shown. |
| Dom.Document.Put | js/script.js:356 | One write changes the page by exactly that write and keeps the layout and visibility. |
| Dom.Document.SetMainVisible | js/script.js:122-123 | Hiding or showing `main` leaves the page content alone. |
| Render.Then | js/script.js:303-312 | A sequence completes iff both parts do; a throw in the first part drops the second; otherwise the second part's writes win. |
| Render.ApplyThen | js/script.js:303-312 | Performing a completed step and then another equals performing their sequence. |
| Render.UpdateText | js/script.js:353-358 | `updateElementText` writes only into an existing element and only a truthy text, and then the element holds exactly that text. |
| Render.AssignText | js/script.js:477 | `if (el) el.textContent = ...` writes any text, falsy or not, into an existing element, and nothing else. |
| Render.HtmlWrite | js/script.js:328-330 | An `innerHTML` assignment completes iff its markup was built without throwing; then an existing element holds exactly that markup, and a missing one is skipped. |
| Render.MapJoin | js/script.js:492-502 | `v.map(f).join('')` throws iff `v` is no array or some item throws. |
| Render.MapJoinShowsEach | js/script.js:366 | On success, every array item's markup occurs in `v.map(f).join('')`. |
| Render.MapJoinThrowsAlike | js/script.js:492-502 | Two builders that throw on the same items make `map` throw on the same arrays. |
| Render.HrefsPresentSnoc | js/script.js:449 | Every link has an `href` iff the earlier ones do and the last one does. |
| Render.NavLinksEffect | js/script.js:447-466 | The `forEach` throws iff some link lacks `href`. |
| Render.NavLinksKeys | js/script.js:447-466 | Only links of the list being walked are written, and only at indices the list has. |
| Render.NavLinksShown | js/script.js:448-450 | When the loop completes, a link is written iff its section has a truthy entry. |
| Render.NavLinksCells | js/script.js:450-456 | A written link holds the localized text, plus the `index*100`ms delay and the fade-in class on desktop links. |
| Render.RenderNavigationEffect | js/script.js:443-467 | Nothing is written without navigation content; with it, the render throws iff some desktop or mobile link lacks `href`. |
| Render.NavigationSplit | js/script.js:443-467 | With navigation content, a completed render writes the desktop links exactly as the desktop loop does, the mobile links exactly as the mobile loop does, and nothing else. |
| Render.NavigationShown | js/script.js:447-466 | After a completed render, link `j` of either list is written iff its section has a truthy entry, and then holds the localized entry, with the delay on desktop. |
| Render.HeroDescriptionsMarkup | js/script.js:328-330 | The hero paragraphs throw exactly when `descriptions` is no array. |
| Render.HeroDescriptionsShowEach | js/script.js:328-330 | The hero paragraphs show every description, localized. |
| Render.RenderHeroEffect | js/script.js:314-336 | Nothing happens unless `hero` and `about` are truthy; it throws exactly when the description container exists and `descriptions` is truthy but no array. |
| Render.HeroWrites | js/script.js:314-336 | A completed hero render sets the name, role and both button texts as `updateElementText` does with the localized fields, and fills the description container with the paragraphs when `descriptions` is truthy. |
| Render.HeroKeys | js/script.js:314-336 | The hero render writes only those five elements. |
| Render.DescriptionParagraph | js/script.js:343-349 | A string description appears as it is; any other is localized first. |
| Render.DescriptionShowsEach | js/script.js:343-350 | The description paragraphs show every description. |
| Render.RenderHeroDescriptionEffect | js/script.js:338-351 | Throws exactly when the container exists and `descriptions` is truthy but no array; writes only the container, which then holds the paragraphs. |
| Render.AboutDescriptionKeys | js/script.js:480-486 | Description paragraph `i` is written iff description `i` exists in the content and paragraph `i` on the page. |
| Render.AboutDescriptionTexts | js/script.js:480-486 | Each such paragraph holds its description's localized text. |
| Render.ListMarkupEffect | js/script.js:490-517 | A stats or skills list throws iff its container exists, the items are truthy and building them throws; it writes only that container, which then holds the joined markup. |
| Render.RenderAboutEffect | js/script.js:469-518 | Nothing happens without the `#about` element or content; otherwise the title is the first write, and the render throws iff the stats or the skills markup throws into an existing container. |
| Render.AboutWrites | js/script.js:469-518 | A completed about render assigns the title, gives each existing description paragraph its localized description, and fills the stats and skills containers with their cards. |
| Render.RenderExperienceEffect | js/script.js:360-372 | The title is written first whenever it exists; with no content only the title is written; it throws exactly when the container exists and the content is truthy but building a card throws. |
| Render.ExperienceWrites | js/script.js:360-372 | A completed experience render sets the translated title, fills the list with the joined cards once content is loaded, and writes nothing else. |
| Render.ExperienceListHoldsCards | js/script.js:366-371 | In a completed render over an array, an existing list holds the joined cards, and every experience's card occurs in it. |
| Render.ExperienceListShowsEach | js/script.js:366 | The joined cards name every experience's localized company, role and duration. |
| Render.RenderEducationEffect | js/script.js:520-555 | Nothing without section or content; it throws exactly when building the items throws. |
| Render.EducationWrites | js/script.js:520-555 | A completed education render sets the title and subtitle, fills the list with the joined items, and writes nothing else. |
| Render.EducationListShowsEach | js/script.js:529-535 | The joined items name every institution, localized degree and year. |
| Render.RenderLanguagesEffect | js/script.js:557-577 | Nothing without section or content; it throws exactly when building the rows throws. |
| Render.LanguagesWrites | js/script.js:557-577 | A completed languages render sets the title and subtitle, fills the list with the joined rows, and writes nothing else. |
| Render.LanguagesListShowsEach | js/script.js:566-571 | The joined rows name every localized language and level. |
| Render.RenderSkillsEffect | js/script.js:612-624 | Nothing without section or content; it throws exactly when the skills markup throws and its container exists. |
| Render.SkillsWrites | js/script.js:612-624 | A completed skills render sets the title and fills the skills container with `createSkillsHTML()`, and writes nothing else. |
| Render.ContactCardsEffect | js/script.js:599-605 | With at least four cards, it throws iff `contactMethods` is nullish, and otherwise writes the four headings in order with email, WhatsApp, phone and location; with fewer cards it does nothing. |
| Render.RenderContactEffect | js/script.js:588-610 | Nothing without section or content; it throws exactly when the card headings throw. |
| Render.ContactWrites | js/script.js:588-610 | A completed contact render sets the title and subtitle, assigns the location line, and writes the card headings exactly as the cards step does. |
| Render.ContactCardsShown | js/script.js:599-605 | With at least four cards, card `i` holds the localized `i`-th contact method. |
| Render.RenderAllEffect | js/script.js:303-312 | `renderAll` completes iff all eight renders complete, in order. |
| Render.RenderAllPage | js/script.js:303-312 | The page `renderAll` leaves keeps the layout and is the old page overlaid with the last write to each element. |
| Render.RenderAllIdempotent | js/script.js:303-312 | Calling `renderAll` again with the same content and language changes nothing. |
| Render.RenderAllBeforeLoad | js/script.js:360-364 | Before the content loads, `renderAll` only sets the experience title. |
| Render.OnlyHeroRenders | js/script.js:303-312 | When every other section writes nothing, `renderAll` is the hero render. |
| Render.ThenCovers | js/script.js:303-312 | Sequencing preserves covering: parts covered one by one give a covered sequence. |
| Render.NavLinksCovers | js/script.js:447-466 | Which links get written, and whether the loop throws, does not depend on the language. |
| Render.UpdateTextCovers | js/script.js:353-358 | An element written with French text is written in every language. |
| Render.HtmlWriteCovers | js/script.js:328-330 | Markups that throw alike write the same elements. |
| Render.NavigationCovers | js/script.js:443-467 | Navigation writes in French are covered by writes in any language. |
| Render.HeroDescriptionsCovers | js/script.js:326-331 | Hero description writes in French are covered in any language. |
| Render.HeroCovers | js/script.js:314-336 | Hero writes in French are covered in any language. |
| Render.ListMarkupCovers | js/script.js:490-517 | List markups whose builders throw alike write the same elements. |
| Render.AboutDescriptionsCovers | js/script.js:480-486 | About description writes in French are covered in any language. |
| Render.AboutCovers | js/script.js:469-518 | About writes in French are covered in any language. |
| Render.ExperienceCovers | js/script.js:360-372 | Experience writes in French are covered in any language. |
| Render.EducationCovers | js/script.js:520-555 | Education writes in French are covered in any language. |
| Render.LanguagesCovers | js/script.js:557-577 | Language writes in French are covered in any language. |
| Render.SkillsThrowAlike | js/script.js:626-656 | Whether the skills markup throws does not depend on the language. |
| Render.SkillsContentCovers | js/script.js:619-623 | Skills content writes in French are covered in any language. |
| Render.SkillsCovers | js/script.js:612-624 | Skills writes in French are covered in any language. |
| Render.ContactCovers | js/script.js:588-610 | Contact writes in French are covered in any language. |
| Render.RenderAllCovers | js/script.js:303-312 | Every element `renderAll` writes in French it also writes in any language, and it throws alike. |
| Render.FrenchThenAnyIsDirect | js/script.js:176-180 | Rendering in French and then in another language leaves exactly the page of rendering in that language directly. |
| Render.SampleHeroRender | js/script.js:320-323 | On the sample page, the hero writes the English role in English and nothing in French. |
| Render.SampleRender | js/script.js:303-312 | On the sample page, `renderAll` is exactly the hero's role write. |
| Render.EnglishThenFrenchKeepsEnglish | js/script.js:176-180 | Toggling from English back to French keeps the stale English role text, while rendering in French directly writes nothing. |
| App.ComponentCell | js/script.js:194-201 | A container receives the fragment when it loaded, and otherwise an error naming the fragment. |
| App.ComponentsDistinct | js/script.js:6-16 | No two fragments share a container. |
| App.LastContainerIsNew | js/script.js:6-16 | A fragment's container differs from every earlier fragment's. |
| App.LoadComponentsCompletes | js/script.js:191-205 | `loadComponents` completes iff every container exists; a missing one does not stop the others. |
| App.LoadComponentsKeys | js/script.js:191-205 | Only the fragments' containers are written. |
| App.LoadComponentsPresence | js/script.js:191-205 | A container is written iff it exists. |
| App.LoadComponentsCells | js/script.js:191-205 | Each existing container receives its fragment, or the error message when fetching it failed. |
| App.Assemble | js/script.js:207-229 | The content is there iff all eight documents loaded, and each field holds the document of its own name. |
| App.LanguageButtonsEffect | js/script.js:163-173 | Both toggle buttons, where they exist, show the upper-cased code, and nothing else is written. |
| App.NavLinksAbortStays | js/script.js:448-450 | Once a link without `href` has thrown, later links change nothing. |
| App.PortfolioApp.constructor | js/script.js:3-5 | A new app starts in French with no content. |
| App.PortfolioApp.UpdateElementText | js/script.js:353-358 | The document changes by exactly the writes of `UpdateText`. |
| App.PortfolioApp.AssignElementText | js/script.js:477 | The document changes by exactly the writes of `AssignText`. |
| App.PortfolioApp.SetInnerHtml | js/script.js:328 | The document changes by the `HtmlWrite`, and the call reports a throw iff the markup threw. |
| App.PortfolioApp.RenderNavLinks | js/script.js:447-466 | The loop performs exactly `NavLinksEffect`'s writes and reports its throw. |
| App.PortfolioApp.RenderNavigation | js/script.js:443-467 | It performs exactly `RenderNavigationEffect`. |
| App.PortfolioApp.RenderHero | js/script.js:314-336 | It performs exactly `RenderHeroEffect`. |
| App.PortfolioApp.RenderHeroDescription | js/script.js:338-351 | It performs exactly `RenderHeroDescriptionEffect`. |
| App.PortfolioApp.RenderAboutDescriptions | js/script.js:480-486 | The loop performs exactly `AboutDescriptionWrites`. |
| App.PortfolioApp.RenderListMarkup | js/script.js:490-517 | It performs exactly `ListMarkupEffect`. |
| App.PortfolioApp.RenderAbout | js/script.js:469-518 | It performs exactly `RenderAboutEffect`. |
| App.PortfolioApp.RenderExperience | js/script.js:360-372 | It performs exactly `RenderExperienceEffect`. |
| App.PortfolioApp.RenderEducation | js/script.js:520-555 | It performs exactly `RenderEducationEffect`. |
| App.PortfolioApp.RenderLanguages | js/script.js:557-577 | It performs exactly `RenderLanguagesEffect`. |
| App.PortfolioApp.RenderSkills | js/script.js:612-624 | It performs exactly `RenderSkillsEffect`. |
| App.PortfolioApp.RenderContact | js/script.js:588-610 | It performs exactly `RenderContactEffect`. |
| App.PortfolioApp.RenderAll | js/script.js:303-312 | It leaves `RenderAllPage` and reports whether all eight renders completed. |
| App.PortfolioApp.UpdateLanguageButton | js/script.js:163-173 | It performs exactly `LanguageButtonsEffect`. |
| App.PortfolioApp.ToggleLanguage | js/script.js:176-180 | The language flips, the buttons are relabelled, and the page is re-rendered in the new language. |
| App.PortfolioApp.ShowError | js/script.js:687-690 | It succeeds iff the container exists, and then writes the error markup only; a missing container throws and changes nothing. |
| App.PortfolioApp.LoadComponents | js/script.js:191-205 | The page changes by exactly `LoadComponentsEffect`, and the call reports whether every container existed. |
| App.PortfolioApp.LoadData | js/script.js:207-229 | If any document failed, nothing changes; otherwise the content is stored and the page re-rendered; a throw in rendering is swallowed. |
| App.PortfolioApp.Init | js/script.js:118-152 | `main` is visible at the end whatever happened; the content is loaded only when every fragment placeholder existed. |
| Legacy.HeaderText | _old/script.js:27-28 | The header text throws exactly when `personal`, `personal.personal` or the field is nullish; otherwise it is the entry for the language if truthy, else `''`. |
| Legacy.HeaderStep | _old/script.js:27-28 | The header completes iff both elements exist and both texts evaluate; then both hold their texts; the lists are untouched. |
| Legacy.DomainNodes | _old/script.js:33-49 | The domain loop completes iff every domain is an object with an `items` array. |
| Legacy.DomainNodesLayout | _old/script.js:33-49 | A domain loop that completes appends exactly two children per domain, in order: the domain's title, then the list of its items. |
| Legacy.DomainNodesStep | _old/script.js:33-48 | After a completed prefix, one more domain appends its own children and the loop goes on exactly when that domain renders. |
| Legacy.SkillsStep | _old/script.js:31-50 | Nothing happens unless `domains` is non-empty; a non-array or a missing list throws with no change; otherwise the domains' children are appended after the existing ones. |
| Legacy.SkillsAppendTwice | _old/script.js:31-50 | The skills list is never cleared: rendering twice appends every title and list twice, four children per domain. |
| Legacy.WithList | _old/script.js:64-88 | Replacing one list's children changes no other list and neither header element. |
| Legacy.WithListTwice | _old/script.js:66 | Replacing a list's children twice leaves only the second replacement. |
| Legacy.EducationLine | _old/script.js:69 | An education line throws exactly for a nullish entry or degree, and otherwise reads `degree[lang] - institution (year)`. |
| Legacy.LanguageLine | _old/script.js:80 | A language line throws exactly for a nullish entry or level, and otherwise reads `language - level[lang]`. |
| Legacy.RoleLine | _old/script.js:96 | The role line is present exactly when the role has a truthy entry for the language, and then shows it. |
| Legacy.OptionalLine | _old/script.js:97-98 | The context and project lines are present exactly for a truthy value, and then show it. |
| Legacy.EntryNamesCompany | _old/script.js:95 | The entry's markup shows the company. |
| Legacy.EntryMarkupShows | _old/script.js:94-99 | The entry's markup shows the duration, and the role, context and project lines whenever they are present. |
| Legacy.ExperienceEntry | _old/script.js:89-138 | An entry throws exactly for a nullish entry or a non-empty non-array list; otherwise it is an entry whose markup is the heading and the role, context and project lines. |
| Legacy.ExperienceEntrySections | _old/script.js:100-136 | A built entry has the separator iff responsibilities are non-empty, the results title iff results are non-empty, and a tech-stack line iff the stack is non-empty; that line names the whole stack. |
| Legacy.ExperienceEntryChildren | _old/script.js:100-136 | A built entry's children are, in order: the separator and the responsibility bullets, then the results title and the result bullets, then the tech-stack line, each group only when its list is non-empty. |
| Legacy.UntilThrow | _old/script.js:67-71 | The append loop completes iff every item renders; it appends one child per item rendered, in input order, and when it throws it stops at the first item that throws. |
| Legacy.UntilThrowStep | _old/script.js:67-71 | After a completed prefix, one more item appends its child, or ends the loop with nothing appended when it throws. |
| Legacy.RenderedIsMap | _old/script.js:67-70 | The page's list callback is the child builder for that list, so the loop's results are the rendered items. |
| Legacy.MapRender | _old/script.js:67 | The callback's results are one per item, each the callback applied to that item. |
| Legacy.ListStep | _old/script.js:64-140 | A missing list is skipped; an existing one is cleared, and then a non-array document throws, while an array fills it with the children `UntilThrow` gives. |
| Legacy.ListHoldsOnePerItem | _old/script.js:64-83 | When every item renders, the list holds exactly one child per item, in order. |
| Legacy.ListStepIdempotent | _old/script.js:66 | A cleared list renders the same however often it is rendered. |
| Legacy.ResumeAfter | _old/script.js:21-24 | Unless all five documents are truthy, no element is written. |
| Legacy.FailedFileRendersNothing | _old/script.js:3-24 | A document that failed to load (`loadJSON` gives `null`) leaves the whole page as it was. |
| Legacy.DomainAbortStays | _old/script.js:33 | Once a domain has thrown, later domains append nothing. |
| Legacy.UntilThrowAbortStays | _old/script.js:67 | Once an item has thrown, later items append nothing. |
| Legacy.ResumePage.constructor | _old/script.js:1 | A page starts with the given elements. |
| Legacy.ResumePage.SetList | _old/script.js:66 | Replaces one list's children. |
| Legacy.ResumePage.RenderHeader | _old/script.js:27-28 | The header texts change exactly as `HeaderStep` says. |
| Legacy.ResumePage.SkillBullets | _old/script.js:39-46 | The loop builds one `<li>` per item, in order, each with its item's text. |
| Legacy.ResumePage.RenderSkills | _old/script.js:31-50 | The section leaves exactly the page `SkillsStep` gives, including what a throw in the middle leaves. |
| Legacy.ResumePage.AppendDomains | _old/script.js:32-48 | The loop over the domains appends exactly the children `DomainNodes` gives and reports whether it ran to its end. |
| Legacy.ResumePage.AppendDomain | _old/script.js:32-47 | One domain appends exactly its own children, and succeeds iff the domain renders; nothing else changes. |
| Legacy.ResumePage.RenderList | _old/script.js:64-140 | The section leaves exactly the page `ListStep` gives, including after a throw. |
| Legacy.ResumePage.AppendEach | _old/script.js:67-71 | The loop over the items fills the cleared list with exactly what `UntilThrow` gives for the callback's results, and reports whether it ran to its end. |
| Legacy.ResumePage.RenderResume | _old/script.js:14-141 | `renderResume` leaves exactly the page `ResumeAfter` gives on the loaded documents. |

## Left out

- Fetching, `response.json()`, `await` and `Promise.all` scheduling are not modelled. Each fetch is a parameter giving the outcome of that fetch. Fragments are modelled as loaded in the order of `this.components`, and all of them are fetched.
- HTML fragments are not parsed. The elements they contain form a fixed `Layout`: the elements present, the navigation `href`s, and the lengths of two element lists.
- CSS selectors are not evaluated. Every element a script looks up is a named target.
- Whitespace inside template literals is left out of the modelled markup. Markup is not HTML-escaped, and neither is the source's.
- Event listeners, the mobile menu, scroll-to-top and `handleDocumentClick` are left out (js/script.js:76-115, 154-160, 247-270, 692-694).
- `setTimeout`, the opacity transition, AOS and `bindMethods` are left out (js/script.js:141-144, 182-189, 696-704). Only `main`'s visibility is modelled.
- The dark theme and `localStorage` are left out (js/script.js:272-288).
- `console.error` is left out.
- `updateFormField` (js/script.js:580-586) is never called and is not modelled.
- server.js is not part of this model.
- App.PortfolioApp.Init: an error thrown by `ensureDarkMode` or by the listener set-up is not modelled. Such an error would still lead to the `catch` that shows the page.
- App.PortfolioApp.Init: the layout is fixed, so a fragment that failed to load keeps its elements in the model. In the browser the error placeholder replaces the fragment, the elements it would have held do not exist, and the renders skip them. The model instead renders into them.
- Json.Member: only `length` is known as a property of strings and arrays. Every other property read on a string, array, number or boolean yields `undefined`; prototype methods are modelled separately (`Elements`, `Includes`, `ArrayJoin`).
- App.PortfolioApp.LoadComponents: a missing placeholder is not tolerated. Both its `innerHTML` write and `showError`'s throw, so `Promise.all` rejects; the model reports `ok == false` and `init` skips `loadData`. The other fragments' writes are kept, as they are when the promises run concurrently.
- Json.Positive: `length > 0` is true for positive numbers and `true`, and false otherwise. A string-valued `length` field that JavaScript would convert to a positive number is modelled as false.
- Numbers are mathematical integers printed in decimal. Floating-point values and their `String` forms are not modelled.
- The `_old/script.js` `DOMContentLoaded` hook (line 143) is not modelled. `RenderResume` is the handler it runs.
