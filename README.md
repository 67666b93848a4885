# Password generator — a Dafny model

The repository is a single-page form: a slider picks a password length
between 4 and 32, three check boxes pick the character classes (numbers,
letters, special characters), a button generates a random password, and a
copy button puts it on the clipboard. Its only logic is the generate action
of the `App` component and the guard of its copy action. This project models
both. It also models the five pieces of component state those actions read
and write.

- `pool.dfy`, module `PasswordPool`: the pure part. It holds the three fixed
  alphabets (52 letters, 10 digits, the 10 symbols `!@#$%^&*()`) and the pool
  built from a selection of classes. It also holds the way one random number
  in [0, 1) picks a pool position, `floor(r * |pool|)`, and the string that a
  sequence of random numbers draws from the pool (`Sample`). The lemmas say
  what the pool holds, that every drawn position is valid, and which symbol
  lands where.
- `app.dfy`, module `PasswordApp`: the component as a class `App`. It has the
  fields `passwordLength`, `password`, `includeNumbers`, `includeChars` and
  `includeSpecial`, with their initial values. `Generate` refuses an empty
  selection and leaves the password alone. Otherwise it builds the pool with
  successive appends and runs the draw loop (`DrawPassword`). Then it
  replaces the password. `CopyToClipboard` hands over text only when the
  password is non-empty. One setter per control: the slider and the three
  check boxes.

The platform's random source is a parameter: a sequence `draws` of reals in
[0, 1), one per loop iteration, in the order the loop consumes them.

The class invariant `Valid()` says three things. The length is in [4, 32],
which is all the slider can produce. The password is empty or 4 to 32
symbols long. Every symbol of the password is in the 72-symbol alphabet.
Every method keeps the invariant.

The code has three independent booleans, modelled as the datatype
`Selection`.

## Model

| member | source | states |
|---|---|---|
| `PasswordPool.Pool` | src/App.js:30-33 | the pool has 52·letters + 10·numbers + 10·special symbols, and it is empty exactly when no box is checked |
| `PasswordPool.PoolMembership` | src/App.js:30-33 | a symbol is in the pool if and only if it is in the alphabet of some enabled class |
| `PasswordPool.PoolIsFilteredFullPool` | src/App.js:30-33 | the pool equals the full 72-symbol alphabet with the symbols of disabled classes removed: each enabled class contributes its symbols once, in the order letters, digits, special |
| `PasswordPool.DrawIndex` | src/App.js:37 | for r in [0, 1) and a non-empty pool, floor(r·n) is a valid position below n (the second ensures only pins the result to the floor of r·n) |
| `PasswordPool.Sample` | src/App.js:35-38 | drawing from the pool yields exactly one symbol per random number |
| `PasswordPool.SampleAt` | src/App.js:36-37 | symbol i of the drawn password is the pool symbol at the position picked by the i-th random number |
| `PasswordPool.SamplePrefix` | src/App.js:35-38 | drawing more random numbers never changes the symbols already drawn: the first m numbers draw exactly the first m symbols of the longer password |
| `PasswordPool.SampleFromEnabledClasses` | src/App.js:30-37 | every drawn symbol lies in the alphabet of an enabled class, and the class read off the symbol itself is an enabled one |
| `PasswordPool.SampleWithinFullPool` | src/App.js:30-38 | every drawn symbol is one of the 72 symbols of the full alphabet |
| `PasswordPool.DigitsOnly` | src/App.js:32 | with only the numbers box checked, every drawn symbol is a digit 0-9 |
| `PasswordApp.DrawPassword` | src/App.js:35-38 | the loop produces max(0, passwordLength) symbols, and they are the symbols that the first that-many random numbers draw from the pool, in draw order; a zero or negative length gives the empty string |
| `PasswordApp.App.constructor` | src/App.js:18-22 | initial state: length 8, empty password, all three boxes checked; the invariant holds |
| `PasswordApp.App.Generate` | src/App.js:24-41 | fails, reporting no class selected, exactly when all three boxes are unchecked, and then keeps the password; otherwise the new password has passwordLength symbols drawn from the pool of the checked classes; length and boxes never change, and the invariant is kept |
| `PasswordApp.App.CopyToClipboard` | src/App.js:43-47 | text reaches the clipboard if and only if the password is non-empty, and that text is the password |
| `PasswordApp.App.SetPasswordLength` | src/App.js:88-93 | the slider stores a value in [4, 32] and changes nothing else |
| `PasswordApp.App.SetIncludeNumbers` | src/App.js:101-105 | the numbers box stores its checked state and changes nothing else |
| `PasswordApp.App.SetIncludeChars` | src/App.js:111-115 | the letters box stores its checked state and changes nothing else |
| `PasswordApp.App.SetIncludeSpecial` | src/App.js:121-125 | the special-characters box stores its checked state and changes nothing else |

## Left out

- Notifications (src/App.js:26, 40, 46): the error and success messages
  become the `Outcome` value that `Generate` returns. The copy message is
  covered by `CopyToClipboard` returning `Some`.
- The clipboard write (src/App.js:45) is platform I/O. `CopyToClipboard`
  returns the text it would write.
- `Math.random()` and the floating-point multiply (src/App.js:37): random
  numbers are a parameter. `r * length` is computed on exact reals, so IEEE
  rounding of the product is not modelled.
- Uniformity and independence of the draws are probabilistic claims and are
  not stated.
- React state hooks and re-rendering: state updates are immediate field
  assignments. The asynchronous batching of `setPassword` is not modelled.
- The JSX layout, Material-UI components and styling (src/App.js:50-170).
  The copy button is shown only for a non-empty password (src/App.js:161).
  That guard is the same one `CopyToClipboard` models.
