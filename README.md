# Storefront core, modelled in Dafny

A model of the behavioural core of a florist's storefront: a web front end written in React.
The model is one Dafny module per source file, and it covers:

- **JPG sequence utilities** (`JpgSequence`):
  - frame-URL generation with zero-padded frame numbers;
  - the preload controller, which counts settled images and can be cancelled;
  - the frame-rate and duration arithmetic;
  - the metadata summary of a URL list.
- **The flipbook player** (`SequencePlayer`):
  - preload counting and the rounded load percentage;
  - the animation-frame tick that skips whole intervals and carries the remainder;
  - loop or stop at the end;
  - play, pause, toggle and seek;
  - the reduced-motion veto.

  The player is a class whose fields are the component's state and refs. Browser events (image load and error, animation-frame callbacks, a change of the reduced-motion preference) are its methods. The callbacks it fires are what those methods return.
- **The cart provider** (`Cart`):
  - adding merges into the line with the same product and options, or appends a new line;
  - removal;
  - quantity updates, where zero or less removes the line;
  - clearing;
  - the derived count, subtotal, 8% tax, the shipping fee over $75 and the final total;
  - the copy persisted to storage after every change.
- **The shop page** (`Shop`):
  - the fixed catalog;
  - the category and inclusive price filters;
  - the five sort modes, "featured" and unknown modes keeping catalog order;
  - the price slider, which resets the lower bound to 0;
  - the product card's star count and its add-to-cart button.
- **The accessibility panel** (`AccessibilityControls`):
  - a reduced-motion override that is unset, on or off, over the system preference;
  - the three-step font size;
  - high contrast;
  - reset;
  - the document root's class list and the storage, which effects keep in step with the preferences.
- **The mock authentication provider** (`Auth`) and its two forms (`SignInModal`, `SignUpModal`):
  - any credentials sign in;
  - the name comes from the address's local part;
  - the sign-up form checks four things in a fixed order.
- **The story section's animation set-up** (`ScrollySection`):
  - the scroll-trigger settings that follow the pin flag;
  - the easing presets;
  - the start and end values, delay and duration of every marked element's tween;
  - per-character splitting of text.
- **The landing hero** (`Hero`):
  - the 60 generated frame names;
  - the player's settings;
  - the entrance animation, which runs at most once;
  - the gradient words of the headline.
- **Accessibility helpers** (`AccessibilityUtils`):
  - the reduced-motion query;
  - the focus trap's Tab rule;
  - keyboard activation;
  - the viewport-visibility ratio.

Money is whole cents; the catalog's prices all have two decimals. Tax is an exact real.

Time is whole milliseconds. The player's frame interval, `1000 / fps`, is a positive whole number of milliseconds.

Behaviours of the code worth noting:

- resuming playback does not reset the last-tick time;
- without looping, a jump that wraps past the last frame keeps playing instead of completing (`SequencePlayer.WrapPastEndKeepsPlaying`);
- `preloadSequence` reports progress only for images that loaded, not for ones that failed;
- an empty URL list never completes;
- the player's `onLoaded` is not called when the last image to settle is one that failed;
- the load handlers use the reduced-motion flag captured when the component mounted (`SequencePlayer.StaleReducedMotionOnLoad`);
- in a browser, the panel's initial reduced-motion override is always set, to false when nothing is stored; it is never unset at mount (only reset unsets it).

## Model

| member | source | states |
|---|---|---|
| JpgSequence.IntToString | src/utils/jpgSequence.js:30 | `String(i)`: the decimal digits of a non-negative number (no leading zero), a minus sign before those of a negative one |
| JpgSequence.ParseDigits | src/utils/jpgSequence.js:30 | the decimal text of `n` reads back as `n`, so distinct frame numbers have distinct texts |
| JpgSequence.PadStartShape | src/utils/jpgSequence.js:30 | `padStart` yields exactly `width` characters when the text is shorter (never truncates), ends with the text, and is fill characters before it |
| JpgSequence.PaddedNumber | src/utils/jpgSequence.js:30 | zero padding never changes the number a frame name denotes |
| JpgSequence.FrameUrlRangeLength | src/utils/jpgSequence.js:29-33 | the frames `start` up to `stop` give one URL each, none when the range is empty |
| JpgSequence.FrameUrlRangeAt | src/utils/jpgSequence.js:29-33 | the `k`-th URL of the range is the URL of frame `start + k` |
| JpgSequence.GenerateFrameUrls | src/utils/jpgSequence.js:19-36 | the loop returns one URL per frame `start..end` inclusive, in increasing order, the `k`-th being `folder/prefix + padded(start+k) + extension`; an empty list when `start > end` |
| JpgSequence.FrameUrlsDistinct | src/utils/jpgSequence.js:30-32 | different non-negative frame numbers never share a URL, whatever the padding |
| JpgSequence.Preload.constructor | src/utils/jpgSequence.js:47-50 | a new preload has counted nothing, is not cancelled, and has not completed |
| JpgSequence.Preload.HandleLoad | src/utils/jpgSequence.js:52-60 | unless cancelled, a load counts once, reports `(loaded, total, url)` and completes exactly when it is the last to settle; when cancelled nothing changes |
| JpgSequence.Preload.HandleError | src/utils/jpgSequence.js:62-71 | unless cancelled, a failure reports `(url, index)` and no progress, still counts, and may complete the preload |
| JpgSequence.Preload.Cancel | src/utils/jpgSequence.js:84-90 | after cancelling, the count and completions are frozen for every later event |
| JpgSequence.CompletesOnce | src/utils/jpgSequence.js:52-71 | `onComplete` fires at most once per preload, and only for a non-empty list once every image has settled |
| JpgSequence.CalculateFps | src/utils/jpgSequence.js:101-104 | 30 for a non-positive duration, otherwise the frame rate within half a frame per second of `frameCount / duration` (rounded half up) |
| JpgSequence.CalculateDuration | src/utils/jpgSequence.js:113-116 | the duration times the rate is the frame count, at 30 fps when the rate is not positive |
| JpgSequence.FpsDurationRoundTrip | src/utils/jpgSequence.js:101-116 | the rate recovered from the duration of a non-empty sequence at a positive whole rate is that rate |
| JpgSequence.GetSequenceMetadata | src/utils/jpgSequence.js:124-139 | a missing or empty list has count and size 0 and no frames; otherwise the count, 200 KB per frame, and the first and last URL; never an aspect ratio |
| JpgSequence.MetadataOfGenerated | src/utils/jpgSequence.js:124-139 | the metadata of generated frames names the first and the last requested frame and counts `end - start + 1` |
| SequencePlayer.Clamp | src/components/hero/JpgSequencePlayer.jsx:254-258 | seek's index is an existing frame: the index itself when in range, 0 below, the last frame above |
| SequencePlayer.Progress | src/components/hero/JpgSequencePlayer.jsx:85 | the percentage is `100 * settled / total` rounded half up: twice the total times it is at most twice the scaled count plus the total, and one more would exceed that |
| SequencePlayer.ProgressRounds | src/components/hero/JpgSequencePlayer.jsx:84-86 | the load percentage is within half a point of `100 * settled / total`, at most 100, 0 at the start and 100 when all have settled |
| SequencePlayer.ProgressMonotone | src/components/hero/JpgSequencePlayer.jsx:84-86 | more settled images never show a smaller percentage |
| SequencePlayer.Step | src/components/hero/JpgSequencePlayer.jsx:170-195 | a tick always leaves an existing frame current, and completes only without looping, on the last frame, after drawing |
| SequencePlayer.StepWithinInterval | src/components/hero/JpgSequencePlayer.jsx:175-177 | at most one interval after the last tick nothing moves and nothing is drawn |
| SequencePlayer.StepAdvances | src/components/hero/JpgSequencePlayer.jsx:177-191 | after more than one interval the frame advances by the whole intervals elapsed (wrapping), the remainder carries over, and completion happens exactly when a non-looping player lands on the last frame |
| SequencePlayer.WrapPastEndKeepsPlaying | src/components/hero/JpgSequencePlayer.jsx:178-182 | a non-looping jump from frame 8 of 10 by three intervals wraps to frame 1 and keeps playing |
| SequencePlayer.LoopRunAccounting | src/components/hero/JpgSequencePlayer.jsx:170-195 | a looping player never drifts: after any run of ticks the frame is the start frame plus the whole intervals between the first and latest tick times, modulo the frame count |
| SequencePlayer.Player.constructor | src/components/hero/JpgSequencePlayer.jsx:38-79 | mounting plays only with autoplay and no reduced motion; an empty frame list is the "No frames provided" error and never loads |
| SequencePlayer.Player.SyncLoop | src/components/hero/JpgSequencePlayer.jsx:159-168 | the tick loop is registered exactly while playing, loaded and not reduced, and `onPlay` fires when it starts |
| SequencePlayer.Player.CountSettled | src/components/hero/JpgSequencePlayer.jsx:84-85 | each settled image counts once and the percentage follows the count |
| SequencePlayer.Player.HandleImageLoad | src/components/hero/JpgSequencePlayer.jsx:83-103 | the last image to settle makes the player loaded, fires `onLoaded`, draws frame 0, and starts playing if autoplay was on and motion was not reduced at mount (every settled frame is taken as drawable) |
| SequencePlayer.Player.HandleImageError | src/components/hero/JpgSequencePlayer.jsx:105-119 | a failed image counts like a loaded one and can finish loading and draw frame 0, but never fires `onLoaded` or starts playing |
| SequencePlayer.Player.DrawFrame | src/components/hero/JpgSequencePlayer.jsx:142-156 | a frame is drawn only once the images are in place |
| SequencePlayer.Player.Animate | src/components/hero/JpgSequencePlayer.jsx:170-195 | the callback moves the player as `Step` says; on completion it stops playing and requests no further frame, otherwise the loop stays registered (every settled frame is taken as drawable) |
| SequencePlayer.Player.Play | src/components/hero/JpgSequencePlayer.jsx:235-239 | a no-op until loaded or while motion is reduced; otherwise plays and fires `onPlay` (again from the loop when it starts) |
| SequencePlayer.Player.Pause | src/components/hero/JpgSequencePlayer.jsx:241-244 | always stops playing and the loop, fires `onPause`, and keeps the current frame |
| SequencePlayer.Player.Toggle | src/components/hero/JpgSequencePlayer.jsx:246-252 | pauses a playing player and otherwise plays it, under play's conditions |
| SequencePlayer.Player.Seek | src/components/hero/JpgSequencePlayer.jsx:254-258 | the current frame becomes the clamped index and is drawn when loaded; playing is unaffected |
| SequencePlayer.Player.SetReducedMotion | src/components/hero/JpgSequencePlayer.jsx:57-66 | reducing motion stops playing and the loop and shows frame 0; lifting it resumes playing when autoplay is set |
| SequencePlayer.StaleReducedMotionOnLoad | src/components/hero/JpgSequencePlayer.jsx:99-101 | motion reduced during loading does not stop the last load from setting `isPlaying`, though the loop stays unregistered |
| Cart.FindLine | src/context/CartContext.jsx:28-31 | the first line with the same product id and the same options, or none exactly when no line matches |
| Cart.Added | src/context/CartContext.jsx:26-44 | adding keeps the number of lines when a line with the same product and options exists, and appends exactly one otherwise |
| Cart.AddedMerges | src/context/CartContext.jsx:33-37 | adding a product already present with the same options grows that one line's quantity and changes nothing else |
| Cart.AddedAppends | src/context/CartContext.jsx:38-41 | a new product or new options go at the end as a new line with the product's fields |
| Cart.AddedCount | src/context/CartContext.jsx:26-44 | adding grows the item count by exactly the quantity added |
| Cart.AddedTotal | src/context/CartContext.jsx:26-44 | adding grows the subtotal by the quantity times the line's price |
| Cart.AddedKeepsDistinct | src/context/CartContext.jsx:26-44 | adding never creates a second line for the same product and options |
| Cart.Removed | src/context/CartContext.jsx:47-49 | removal never adds lines and leaves no line of the removed product |
| Cart.RemovedContents | src/context/CartContext.jsx:47-49 | removal keeps exactly the lines of other products |
| Cart.RemovedConcat | src/context/CartContext.jsx:47-49 | removal keeps the order of the remaining lines |
| Cart.RemovedTotals | src/context/CartContext.jsx:47-49 | removing a product takes its lines' quantities off the count and their subtotals off the total |
| Cart.RemovedIdempotent | src/context/CartContext.jsx:47-49 | removing twice is removing once |
| Cart.RemovedKeepsDistinct | src/context/CartContext.jsx:47-49 | removal keeps lines distinct |
| Cart.QuantityUpdated | src/context/CartContext.jsx:52-62 | zero or less leaves no line of the product; a positive quantity keeps every line and gives each of the product's lines that quantity |
| Cart.QuantityUpdatedSets | src/context/CartContext.jsx:57-61 | a positive quantity replaces the quantity of every line of the product in place and leaves the rest |
| Cart.QuantitySetCount | src/context/CartContext.jsx:57-61 | after a positive update the count is the other products' count plus the new quantity for each of the product's lines |
| Cart.QuantityUpdatedKeepsDistinct | src/context/CartContext.jsx:52-62 | updating quantities keeps lines distinct |
| Cart.CartCount | src/context/CartContext.jsx:70 | the item count (the sum of the quantities) is never negative while no quantity is |
| Cart.CartTotal | src/context/CartContext.jsx:71 | the subtotal in cents is never negative while no price or quantity is |
| Cart.CartTax | src/context/CartContext.jsx:73 | tax is exactly 8% of the subtotal |
| Cart.CartShipping | src/context/CartContext.jsx:74 | shipping is free exactly when the subtotal is strictly above $75, otherwise $9.99 |
| Cart.CartFinalTotal | src/context/CartContext.jsx:75 | the final total is 108% of the subtotal plus shipping |
| Cart.EmptyCartTotals | src/context/CartContext.jsx:70-75 | an empty cart counts 0 and totals 0 but still owes $9.99 shipping |
| Cart.ShippingThreshold | src/context/CartContext.jsx:74-75 | at exactly $75 shipping is charged, one cent more and it is free |
| Cart.CartStore.constructor | src/context/CartContext.jsx:13-18 | the cart starts with the saved lines, or empty, with the panel closed |
| Cart.CartStore.AddToCart | src/context/CartContext.jsx:26-44 | the lines become the merged-or-appended lines, the panel opens, and the persisted copy follows |
| Cart.CartStore.RemoveFromCart | src/context/CartContext.jsx:47-49 | the lines lose every line of the product; the persisted copy follows |
| Cart.CartStore.UpdateQuantity | src/context/CartContext.jsx:52-62 | zero or less removes the product's lines, otherwise sets their quantity; the persisted copy follows |
| Cart.CartStore.ClearCart | src/context/CartContext.jsx:65-67 | the cart becomes empty and the panel is left as it was |
| Cart.CartStore.SetCartOpen | src/context/CartContext.jsx:18 | only the panel flag changes |
| Shop.Filter | src/pages/Shop.jsx:132-137 | a filter never yields more products than it is given |
| Shop.FilterContents | src/pages/Shop.jsx:132-137 | a filter keeps exactly the accepted products, never more often than before |
| Shop.InCategory | src/pages/Shop.jsx:132-134 | "all" keeps every product, any other category keeps that category's products |
| Shop.InPriceRange | src/pages/Shop.jsx:137 | the price filter keeps the products priced within the range, inclusive at both ends |
| Shop.Insert | src/pages/Shop.jsx:140-149 | inserting into a sorted list keeps it sorted and adds exactly that product |
| Shop.SortBy | src/pages/Shop.jsx:140-149 | each sort mode's result is ordered by its key and is a permutation of its input |
| Shop.SortStable | src/pages/Shop.jsx:140-149 | the sort is stable: products sharing a key value keep their relative order |
| Shop.InsertStable | src/pages/Shop.jsx:140-149 | inserting places the product ahead of equal keys and keeps their order |
| Shop.Reverse | src/pages/Shop.jsx:150-151 | "newest" shows the filtered products in reverse order, none added or lost |
| Shop.Arranged | src/pages/Shop.jsx:140-155 | every sort mode rearranges the filtered products without adding or dropping any; "featured" and unknown modes keep their order |
| Shop.DistinctIdsOccurOnce | src/pages/Shop.jsx:9-98 | a list without repeated ids holds no product twice |
| Shop.OccurOnceNoRepeats | src/pages/Shop.jsx:9-98 | a product held at most once sits at only one position |
| Shop.PipelineContents | src/pages/Shop.jsx:128-158 | over a catalog without repeated ids, the page shows exactly the products passing both filters, each once, whatever the sort |
| Shop.CatalogIdsDistinct | src/pages/Shop.jsx:9-98 | the catalog's ids are all different |
| Shop.FilterAndSort | src/pages/Shop.jsx:128-158 | the pipeline's result holds exactly the matching products, once each; it is sorted by price or rating as chosen, reversed for "newest", and unchanged for the rest |
| Shop.ShopPage.constructor | src/pages/Shop.jsx:122-124 | the page starts on all categories, featured order and $0-$200 |
| Shop.ShopPage.SelectCategory | src/pages/Shop.jsx:196 | a category click changes only the category |
| Shop.ShopPage.SelectSort | src/pages/Shop.jsx:241 | choosing a sort mode changes only the mode |
| Shop.ShopPage.MovePriceSlider | src/pages/Shop.jsx:215-220 | the slider sets the upper bound and resets the lower one to 0 |
| Shop.ShopPage.Visible | src/pages/Shop.jsx:128-158 | the grid shows exactly the catalog products that pass the page's filters, once each |
| Shop.FilledStars | src/pages/Shop.jsx:331-337 | star `i` of five is filled exactly when `i` is below the rating's floor |
| Shop.CatalogStars | src/pages/Shop.jsx:9-98 | every catalog product shows five stars when rated 5.0 and four otherwise |
| Shop.ProductCard.constructor | src/pages/Shop.jsx:283-285 | a card starts not adding |
| Shop.ProductCard.HandleAddToCart | src/pages/Shop.jsx:287-291 | the quick add puts one unit with no options into the cart and opens it, and re-enables the button |
| Shop.ProductCard.AddDisabled | src/pages/Shop.jsx:307 | an out-of-stock product's button is always disabled; an in-stock one exactly while an add is in progress |
| Shop.ProductCard.Click | src/pages/Shop.jsx:305-307 | a disabled button (adding, or out of stock) changes nothing; an enabled one adds one unit and opens the cart, which stays consistent with its persisted copy |
| AccessibilityControls.StoredFlag | src/components/common/AccessibilityControls.jsx:21 | a stored flag is true exactly when the stored text is "true" |
| AccessibilityControls.Effective | src/components/common/AccessibilityControls.jsx:36 | the override wins when set; otherwise the system setting applies |
| AccessibilityControls.ToggleMotion | src/components/common/AccessibilityControls.jsx:86-88 | toggling sets the override: unset becomes on, a set one flips |
| AccessibilityControls.NextFontSize | src/components/common/AccessibilityControls.jsx:90-96 | normal goes to large, large to xl, and everything else to normal |
| AccessibilityControls.FontClass | src/components/common/AccessibilityControls.jsx:46-60 | large gets text-lg, xl gets text-xl, and every other size the base class |
| AccessibilityControls.InitialUserReducedMotion | src/components/common/AccessibilityControls.jsx:19-22 | the override is unset only without a window, otherwise it is the stored flag |
| AccessibilityControls.InitialFontSize | src/components/common/AccessibilityControls.jsx:24-27 | the stored size unless missing or empty, else "normal"; never empty |
| AccessibilityControls.InitialHighContrast | src/components/common/AccessibilityControls.jsx:29-32 | high contrast starts on exactly in a window with "true" stored |
| AccessibilityControls.Applied | src/components/common/AccessibilityControls.jsx:35-69 | after the effects the root has the reduced-motion class exactly when motion is reduced, the contrast class exactly when contrast is on, and the size's font class |
| AccessibilityControls.AppliedReflects | src/components/common/AccessibilityControls.jsx:35-69 | after the effects, the root has the reduced-motion and contrast classes exactly when on, exactly one font class, and its other classes untouched |
| AccessibilityControls.Saved | src/components/common/AccessibilityControls.jsx:72-84 | the save effects store the font size, the contrast flag as text, and a set override as text |
| AccessibilityControls.SavedPersists | src/components/common/AccessibilityControls.jsx:72-84 | after the save effect, each set preference is stored as the text it reads back as, every other key is kept as it was, and an unset override leaves the stored one alone |
| AccessibilityControls.ReloadRestores | src/components/common/AccessibilityControls.jsx:19-32 | reloading reads back the persisted font size, contrast and set override |
| AccessibilityControls.ResetOverrideNotPersisted | src/components/common/AccessibilityControls.jsx:72-84 | an unset override is never written, so a reload brings back the last stored one |
| AccessibilityControls.FontSizeCycle | src/components/common/AccessibilityControls.jsx:90-96 | three steps bring each size in the cycle back to itself |
| AccessibilityControls.ToggleEffect | src/components/common/AccessibilityControls.jsx:86-88 | toggling a set override flips the effective setting; an unset one turns reduced motion on |
| AccessibilityControls.MotionCaption | src/components/common/AccessibilityControls.jsx:144-146 | the caption is one of the four texts: "Enabled" or "Disabled" for a set override, "System: On" or "System: Off" when unset; it says "on" exactly when motion is reduced |
| AccessibilityControls.Panel.ApplyEffects | src/components/common/AccessibilityControls.jsx:35-84 | the effects keep the class list and the storage in step with the preferences |
| AccessibilityControls.Panel.constructor | src/components/common/AccessibilityControls.jsx:14-32 | the panel mounts closed, with the stored preferences, and applies them |
| AccessibilityControls.Panel.ToggleOpen | src/components/common/AccessibilityControls.jsx:106 | opening or closing the panel changes nothing else |
| AccessibilityControls.Panel.ToggleReducedMotion | src/components/common/AccessibilityControls.jsx:86-88 | the override toggles; the class list and storage follow by the effects, every class and key the panel does not own kept |
| AccessibilityControls.Panel.CycleFontSize | src/components/common/AccessibilityControls.jsx:90-96 | the font size steps; the class list and storage follow by the effects, every class and key the panel does not own kept |
| AccessibilityControls.Panel.ToggleHighContrast | src/components/common/AccessibilityControls.jsx:98-100 | contrast flips; the class list and storage follow by the effects, every class and key the panel does not own kept |
| AccessibilityControls.Panel.Reset | src/components/common/AccessibilityControls.jsx:215-218 | reset unsets the override, restores normal size and no contrast; motion follows the system and the stored override is kept; the effects touch nothing else |
| AccessibilityControls.Panel.SetSystemReducedMotion | src/components/common/AccessibilityControls.jsx:16 | a system change re-applies the effects, which touch nothing the panel does not own, and affects the class list only when no override is set |
| Auth.FirstAt | src/context/AuthContext.jsx:44 | the position of the first '@', or the end when there is none |
| Auth.NameFromEmail | src/context/AuthContext.jsx:44 | the name is the longest '@'-free prefix of the address |
| Auth.NameIsLocalPart | src/context/AuthContext.jsx:44 | for an address made of local part, '@' and domain, the name is the local part |
| Auth.NameWithoutAt | src/context/AuthContext.jsx:44 | an address without '@' is its own name |
| Auth.SignedInUser | src/context/AuthContext.jsx:41-47 | the mock user has id "1", the address, the address's local part as name, no avatar and the customer role |
| Auth.SignedUpUser | src/context/AuthContext.jsx:70-76 | the registered user has id "1", the given name and address, no avatar and the customer role |
| Auth.AuthStore.constructor | src/context/AuthContext.jsx:13-20 | the provider starts with the saved user, if any, both modals closed and no error |
| Auth.AuthStore.SignIn | src/context/AuthContext.jsx:32-58 | any address signs in as its mock user, closes the sign-in modal, succeeds, and is persisted |
| Auth.AuthStore.SignUp | src/context/AuthContext.jsx:61-87 | any form registers its user, closes the sign-up modal, succeeds, and is persisted |
| Auth.AuthStore.SignOut | src/context/AuthContext.jsx:90-95 | nobody is signed in, the stored user is removed, both modals close and the error clears |
| Auth.AuthStore.ResetPassword | src/context/AuthContext.jsx:98-112 | succeeds without a user and changes nothing but clearing the error |
| Auth.AuthStore.IsAuthenticated | src/context/AuthContext.jsx:116 | in a consistent provider, someone is authenticated exactly when a user is persisted |
| Auth.AuthStore.SetSignInOpen | src/context/AuthContext.jsx:121 | only the sign-in modal flag changes |
| Auth.AuthStore.SetSignUpOpen | src/context/AuthContext.jsx:122 | only the sign-up modal flag changes |
| SignInModal.SignInError | src/components/auth/SignInModal.jsx:22-25 | the form fails exactly when the address or the password is empty, with "Please fill in all fields" |
| SignInModal.RememberMeIgnored | src/components/auth/SignInModal.jsx:18-31 | "remember me" never changes the outcome |
| SignInModal.Submit | src/components/auth/SignInModal.jsx:18-31 | an incomplete form sets the message and leaves the provider untouched; a complete one signs in as its address's mock user and closes the modal |
| SignUpModal.SignUpError | src/components/auth/SignUpModal.jsx:25-43 | each message is reported exactly when its check is the first to fail: required fields, matching passwords, length 8, terms |
| SignUpModal.AcceptedForms | src/components/auth/SignUpModal.jsx:25-43 | a form passes exactly when filled, matching, at least 8 long and with the terms accepted |
| SignUpModal.MismatchBeforeLength | src/components/auth/SignUpModal.jsx:30-38 | a short mistyped password reports the mismatch, a short matching one the length, an empty form the required fields |
| SignUpModal.Submit | src/components/auth/SignUpModal.jsx:20-49 | a failing form sets its first message and leaves the provider untouched; a passing one registers its user and closes the modal |
| ScrollySection.PresetNamed | src/components/scrollytelling/ScrollySection.jsx:65-87 | unknown preset names fall back to the default; every preset staggers forward and any duration is positive |
| ScrollySection.TriggerFor | src/components/scrollytelling/ScrollySection.jsx:52-62 | pinning switches the end to the pin duration and turns scrubbing and pin spacing on together |
| ScrollySection.VarsFor | src/components/scrollytelling/ScrollySection.jsx:104-191 | every type starts at opacity 0 and every end value is the property's resting value |
| ScrollySection.StartsHiddenAndPairsUp | src/components/scrollytelling/ScrollySection.jsx:107-191 | every type starts at opacity 0 and animates back exactly the properties it starts from, except the mask reveal, which ends with no opacity |
| ScrollySection.UnknownTypeFadesUp | src/components/scrollytelling/ScrollySection.jsx:188-190 | an unrecognised type fades in while rising 60 pixels |
| ScrollySection.StartStyle | src/components/scrollytelling/ScrollySection.jsx:164-166 | only the mask reveal gives the element an inline style, and that style holds only the clip path |
| ScrollySection.BuildVars | src/components/scrollytelling/ScrollySection.jsx:104-191 | the switch builds each type's start and end values, and only the mask reveal sets a start style, its clip path |
| ScrollySection.DelayFor | src/components/scrollytelling/ScrollySection.jsx:193 | the element's own delay when given, else its position times the preset's stagger |
| ScrollySection.DurationFor | src/components/scrollytelling/ScrollySection.jsx:200 | the element's own duration unless missing or zero, else the preset's |
| ScrollySection.StaggerOrders | src/components/scrollytelling/ScrollySection.jsx:193 | later elements without their own delay start later, one stagger step per position |
| ScrollySection.SplitChars | src/components/scrollytelling/ScrollySection.jsx:171-176 | one span per character, spaces made non-breaking, each 30 ms after the one before |
| ScrollySection.SplitRoundTrip | src/components/scrollytelling/ScrollySection.jsx:171-176 | the spans show the original text, with nothing lost |
| ScrollySection.AnimateElement | src/components/scrollytelling/ScrollySection.jsx:98-205 | split text is rewritten into spans with the fixed character tween; any other element gets its type's start style, start and end values, delay, duration and the preset's ease |
| ScrollySection.CountsAgree | src/components/scrollytelling/ScrollySection.jsx:186 | exactly the elements that are not split text put a tween on the timeline |
| ScrollySection.SetupSection | src/components/scrollytelling/ScrollySection.jsx:41-206 | reduced motion shows the section at rest; otherwise every element, in order, gets its animation (start style, values, delay, duration and ease, or split spans) on the trigger the config asks for |
| Hero.HeroFrameUrlIsFrameUrl | src/components/hero/Hero.jsx:124-125 | the hero's frame names are the sequence naming for its folder, the "frame_" prefix, ".jpg" and padding 3 |
| Hero.GetJpgFrames | src/components/hero/Hero.jsx:112-129 | given frames are used as they are; otherwise 60 generated names, numbered 1 to 60 in order |
| Hero.GeneratedFramesDistinct | src/components/hero/Hero.jsx:120-126 | generated names for different frame numbers are all different |
| Hero.GeneratedFramesNumbered | src/components/hero/Hero.jsx:122-125 | each generated name reads back as its frame number, written as three digits for frames 1 to 60 |
| Hero.MountPlayer | src/components/hero/Hero.jsx:140-147 | the player always loops, autoplays unless motion is reduced, and gets the given or the 60 generated frames |
| Hero.SplitWords | src/components/hero/Hero.jsx:182 | splitting on spaces yields at least one word and no word holds a space |
| Hero.FirstSpace | src/components/hero/Hero.jsx:182 | the position of the first space |
| Hero.SplitJoin | src/components/hero/Hero.jsx:182 | joining the words with single spaces gives back the headline |
| Hero.SplitAt | src/components/hero/Hero.jsx:182 | a space-free word, a space and a rest split into that word and the rest's words |
| Hero.IsGradient | src/components/hero/Hero.jsx:183 | only a non-empty, space-free word is drawn with the gradient, so both gradient words can come out of the headline split |
| Hero.MarkedHeadline | src/components/hero/Hero.jsx:182-183 | each headline word, in order, is drawn with the gradient exactly when it is "Life's" or "Moments" |
| Hero.HeroState.constructor | src/components/hero/Hero.jsx:54-55 | the hero starts with media not loaded and no entrance run |
| Hero.HeroState.EntranceEffect | src/components/hero/Hero.jsx:58-104 | the entrance runs exactly when the media is loaded, it has not run, and motion is not reduced |
| Hero.HeroState.HandleMediaLoaded | src/components/hero/Hero.jsx:107-109 | the media is loaded, and the entrance runs if it has not and motion is not reduced |
| Hero.HeroState.SetReducedMotion | src/components/hero/Hero.jsx:58-104 | a preference change re-runs the guard: the entrance runs only when loaded, not yet run, and not reduced |
| Hero.EntranceRunsOnce | src/components/hero/Hero.jsx:58-109 | however loads and preference changes interleave, the entrance runs at most once |
| AccessibilityUtils.PrefersReducedMotion | src/utils/accessibility.js:11-14 | true exactly when a window exists and the reduced-motion query matches |
| AccessibilityUtils.InitialFocus | src/utils/accessibility.js:72 | the trap focuses the first focusable element, when there is one |
| AccessibilityUtils.TrapWrapsExactly | src/utils/accessibility.js:53-67 | the trap acts exactly on Shift+Tab from the first element (moving to the last) and Tab from the last (moving to the first) |
| AccessibilityUtils.TrapKeyDown | src/utils/accessibility.js:53-67 | keys other than Tab are ignored, and whatever the trap focuses is inside the container |
| AccessibilityUtils.TabThenShiftTabReturns | src/utils/accessibility.js:53-67 | Tab off the last element then Shift+Tab returns to the last element |
| AccessibilityUtils.KeyboardActivation | src/utils/accessibility.js:125-132 | Enter and Space activate and prevent the default action; other keys do neither |
| AccessibilityUtils.VisibleHeight | src/utils/accessibility.js:142-145 | the visible height is non-negative, at most the element's extent and at most the viewport height |
| AccessibilityUtils.VisibleRatio | src/utils/accessibility.js:146-147 | the ratio is the visible height over the element's height, and 0 for an element with no height |
| AccessibilityUtils.InViewport | src/utils/accessibility.js:140-149 | with the default threshold 0 (or any lower one) every element counts as in the viewport; an element with no height counts only at such thresholds |
| AccessibilityUtils.RatioBounds | src/utils/accessibility.js:140-149 | the ratio is at most 1, is 1 exactly when the element is wholly inside the viewport, and 0 when wholly above or below |
| AccessibilityUtils.RatioOfParts | src/utils/accessibility.js:147 | a part of a positive whole divided by the whole is at most 1, and 1 or 0 exactly for the whole or nothing |
| AccessibilityUtils.ThresholdMonotone | src/utils/accessibility.js:148 | an element visible at a threshold is visible at any lower one |

## Left out

- Default arguments: `generateFrameUrls` (`prefix = ''`, `extension = '.jpg'`, `start = 1`, `padding = 3`), `addToCart` (`quantity = 1`, `options = {}`) and `isElementInViewport` (`threshold = 0`) take every argument explicitly in the model; callers pass the defaults themselves.
- Storage and JSON: `localStorage` reads and writes are fields of the stores or panels, saved values are parameters, and `JSON.stringify` option comparison is equality of ordered key/value lists; malformed stored JSON is not modelled.
- Asynchrony: the simulated one-second delays in sign-in, sign-up and password reset, and React's batching of state updates, are modelled as atomic steps; the unreachable `catch` branches of the auth operations are not modelled.
- Cart.CartStore.AddToCart: the source mutates the shared line object in place, which under React's strict-mode double invocation adds the quantity twice; the model adds it once, as evidently intended.
- SequencePlayer.Progress: the source rounds the double `(loadedCount / frames.length) * 100`, whose rounding error can cross the half: 29 of 200 gives 14.499999999999998 and shows 14, where the exact half-up rounding modelled gives 15.
- Floating point: JpgSequence.CalculateFps and JpgSequence.CalculateDuration divide exact reals, where the source's double quotient just below a half can round the other way; prices are whole cents and the frame interval is a whole positive number of milliseconds (`1000 / fps` is not generally whole); tax and the visibility ratio are exact reals; `NaN` from `parseFloat` of a malformed `data-delay`/`data-duration` is not modelled.
- Strings are sequences of characters: JavaScript's UTF-16 code units (text splitting, `padStart` lengths) are not distinguished.
- Shop sorting is modelled on values by a stable insertion sort with the same ordering as `Array.prototype.sort` with the key comparator; the in-place sort and reverse of the copied array are not modelled as array updates.
- Canvas drawing, image decoding, the resize handler, `requestAnimationFrame` scheduling and `cancelAnimationFrame` are reduced to the drawn frame index and a "loop registered" flag; component unmount and listener clean-up are not modelled.
- SequencePlayer.Player.Animate: in a browser, `drawImage` of an image whose load failed (its broken state) throws, so a tick that reaches a failed frame throws before updating the last-tick time and before requesting the next frame. The loop then ends for good with `isPlaying` still true, and `onComplete` never fires. The model treats every settled frame as drawable, so its loop keeps running past a failed frame.
- SequencePlayer.Player.HandleImageLoad: for the same reason, when frame 0 failed and the last image to settle loaded, the source throws at the frame-0 draw before starting playback; the model draws frame 0 and starts playing as if it had loaded.
- Hero.HeroState.EntranceEffect: `setHasAnimated(true)` changes a dependency of the effect that built the entrance timeline, so on the next commit React runs that effect's clean-up, `ctx.revert()` (src/components/hero/Hero.jsx:101-104), which reverts the entrance; `ran` records that the entrance was started, not that it stays applied.
- Re-rendering the hero: `getJpgFrames()` (src/components/hero/Hero.jsx:141) builds a new array on every render, and the player's preload effect depends on `[frames]` (src/components/hero/JpgSequencePlayer.jsx:139), so each hero re-render restarts the preload with fresh images and a zero count; SequencePlayer.Player models one preload per mount, with its props fixed.
- The animation library (GSAP) itself and the section's parallax block; the split-text tween is modelled by its start values, stagger, duration and ease, not by its scroll trigger, which is the section's; ScrollySection.PresetNamed does not model preset names that are inherited object properties such as "toString".
- Rendering: markup, class names other than the root's preference classes, the panel's `isOpen` rendering, the hero's video branch (`HeroVideo` is not part of this model), and the concrete default headline string.
- The remaining accessibility helpers (`prefersDarkMode`, `prefersHighContrast`, `restoreFocus`, `announce`, `createAnnouncer`, `getFocusableElements`, `setupSkipLink`) and the focusable-element CSS selector query, whose result is a parameter.
- AccessibilityUtils.VisibleRatio: the element's height is taken as given by the browser; the bounds relating it to top and bottom are proved in AccessibilityUtils.RatioBounds under the premise `height == bottom - top`.
