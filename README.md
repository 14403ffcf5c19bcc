# Licences and game store: a verified model

This project models two parts of one repository:

- A licence service (`LicenciaService`, Spring and JPA). It keeps a table of game licences and creates, lists, updates, deletes, assigns and releases them.
- The core logic of an Android game store app:
  - the shopping cart;
  - the form validators and the Chilean phone formatter;
  - the sign-in, registration and change-password form state;
  - the profile editor's save guard;
  - the game stock operations and the remote catalogue mapping;
  - review admission;
  - the game library screen;
  - the session singleton;
  - the adaptive window classification.

Each source file becomes one module:

| module | file | form |
|---|---|---|
| `LicenciaModel` | `model/Licencia.java` | a `Licencia` row datatype, the column constraints, and the `LicenciaEntity` bean class with its setters |
| `LicenciaRules` | `service/LicenciaService.java` | what each service call does to the table, as pure functions (the specification) |
| `Licencias` | `service/LicenciaService.java` | the `LicenciaService` class over a `store` map; every method is proved against `LicenciaRules` |
| `LicenciaProperties` | both | lemmas that relate several calls |
| `Validators` | `domain/Validators.kt` | pure functions returning an optional message |
| `PhoneFormat` | `ui/viewmodel/AuthViewModel.kt` | the phone formatter and its properties |
| `AuthForms` | `ui/viewmodel/AuthViewModel.kt` | the three form states, and a class whose handlers update them |
| `ProfileEdit` | `ui/screen/ProfileEditScreen.kt` | the screen's own formatter copy, the save guard, and a class for the screen state |
| `Cart` | `viewmodel/CartViewModel.kt` | `CartViewModel` over a `seq<CartItem>` |
| `Games` | `data/repository/GameRepository.kt` | `GameRepository` over a `map<int, JuegoEntity>`, plus `toEntity` and Java's `String.hashCode` |
| `Resenas` | `data/repository/ResenaRepository.kt` | `ResenaRepository` over a sequence of review rows |
| `Library` | `viewmodel/LibraryViewModel.kt` | `LibraryViewModel` over a `seq<LibraryGame>`, plus pure filters and counts |
| `Session` | `data/SessionManager.kt` | a `SessionManager` class whose state is tied to a pure `Apply` step function |
| `WindowSize` | `ui/utils/WindowSizeUtils.kt` | pure decision functions over width and height |

`Wrappers` holds `Option` and `Result`. `Text` holds the Kotlin and Java string helpers the code relies on: `isBlank`, `trim`, `startsWith`, `replace`, digit filtering, case-insensitive comparison, `toLongOrNull` and decimal printing.

A Java or Kotlin `null` is `None`. An exception that the source throws or wraps in `Result.failure` is a `Failure` with the message or error kind. The clock, the current date and injected validators are parameters.

## Model

| member | source | states |
|---|---|---|
| LicenciaModel.LicenciaEntity.Load | src/main/java/com/licencia/licencia/model/Licencia.java:14-38 | a bean loaded from a stored row holds exactly that row |
| LicenciaModel.LicenciaEntity.SetId | src/main/java/com/licencia/licencia/model/Licencia.java:42 | changes the id and no other field |
| LicenciaModel.LicenciaEntity.SetClave | src/main/java/com/licencia/licencia/model/Licencia.java:46 | changes the key and no other field |
| LicenciaModel.LicenciaEntity.SetFechaVencimiento | src/main/java/com/licencia/licencia/model/Licencia.java:50 | changes the expiry date and no other field |
| LicenciaModel.LicenciaEntity.SetEstadoId | src/main/java/com/licencia/licencia/model/Licencia.java:54 | changes the state and no other field |
| LicenciaModel.LicenciaEntity.SetJuegoId | src/main/java/com/licencia/licencia/model/Licencia.java:58 | changes the game and no other field |
| LicenciaModel.LicenciaEntity.SetUsuarioId | src/main/java/com/licencia/licencia/model/Licencia.java:62 | changes the holder and no other field |
| LicenciaModel.LicenciaEntity.SetAsignadaEn | src/main/java/com/licencia/licencia/model/Licencia.java:66 | changes the assignment time and no other field |
| LicenciaRules.Save | src/main/java/com/licencia/licencia/model/Licencia.java:16-38 | a write succeeds iff the row meets its column constraints (id of at most 20 characters, `clave` not blank, date not null, optional string columns of at most 20 characters) and no other row holds its `clave`; it then replaces only that id's row |
| LicenciaRules.Listar | src/main/java/com/licencia/licencia/service/LicenciaService.java:21-28 | a row is listed iff it matches every non-null, non-blank filter; with no such filter every row is listed; listed rows are the stored ones |
| LicenciaRules.ListarDisponibles | src/main/java/com/licencia/licencia/service/LicenciaService.java:30-32 | exactly the rows of the given game whose state is exactly "DISPONIBLE" |
| LicenciaRules.FindByJuegoIdAndEstadoId | src/main/java/com/licencia/licencia/service/LicenciaService.java:22-23 | the derived query: exactly the rows whose game and state both equal the arguments, unchanged |
| LicenciaRules.FindByJuegoId | src/main/java/com/licencia/licencia/service/LicenciaService.java:25 | the derived query: exactly the rows of that game, unchanged |
| LicenciaRules.FindByEstadoId | src/main/java/com/licencia/licencia/service/LicenciaService.java:26 | the derived query: exactly the rows in that state, compared exactly, unchanged |
| LicenciaRules.Obtener | src/main/java/com/licencia/licencia/service/LicenciaService.java:38-40 | the stored row when the id is present, otherwise a not-found error |
| LicenciaRules.WithDefaultState | src/main/java/com/licencia/licencia/service/LicenciaService.java:44-46 | a null or blank state becomes "DISPONIBLE"; any other state and every other field is kept |
| LicenciaRules.Crear | src/main/java/com/licencia/licencia/service/LicenciaService.java:42-48 | an existing id is rejected with nothing written; a new id succeeds iff the row with the defaulted state is well formed and its `clave` is held by no other row, and then that row is saved under its id; otherwise the constraint violation is reported and the table is unchanged |
| LicenciaRules.Actualizar | src/main/java/com/licencia/licencia/service/LicenciaService.java:50-59 | an absent id fails with not-found; a present id succeeds iff the data with the stored id is well formed and its `clave` is held by no other row, and then every field but the id comes from the data; otherwise the constraint violation is reported and nothing changes |
| LicenciaRules.Eliminar | src/main/java/com/licencia/licencia/service/LicenciaService.java:61-64 | succeeds iff the id is present, and then removes exactly that row |
| LicenciaRules.Asignar | src/main/java/com/licencia/licencia/service/LicenciaService.java:70-79 | an absent id or a state other than "DISPONIBLE" (ignoring case) fails and changes nothing; on success the state is "ASIGNADA", the holder and time are the arguments, and the other fields are kept |
| LicenciaRules.Liberar | src/main/java/com/licencia/licencia/service/LicenciaService.java:81-87 | an absent id fails; otherwise the row becomes "DISPONIBLE" with no holder and no time, whatever its state was |
| Licencias.LicenciaService.constructor | src/main/java/com/licencia/licencia/service/LicenciaService.java:19 | the service starts on a table that meets its constraints |
| Licencias.LicenciaService.ObtenerDisponible | src/main/java/com/licencia/licencia/service/LicenciaService.java:34-36 | returns an exactly-"DISPONIBLE" licence of the game with the earliest expiry date, and none only when there is no such licence with a date |
| Licencias.LicenciaService.Listar | src/main/java/com/licencia/licencia/service/LicenciaService.java:21-28 | the listing of `LicenciaRules.Listar` on the current table: stored rows only, every row when no filter applies |
| Licencias.LicenciaService.ListarDisponibles | src/main/java/com/licencia/licencia/service/LicenciaService.java:30-32 | exactly the current table's rows of the game in state exactly "DISPONIBLE" |
| Licencias.LicenciaService.Obtener | src/main/java/com/licencia/licencia/service/LicenciaService.java:38-40 | the stored row iff the id is present, otherwise the not-found error |
| Licencias.LicenciaService.BuscarPorClave | src/main/java/com/licencia/licencia/service/LicenciaService.java:66-68 | returns the one stored licence holding the key, and none iff no row holds it |
| Licencias.LicenciaService.SaveEntity | src/main/java/com/licencia/licencia/service/LicenciaService.java:47 | saving the bean has the effect of `Save` on its row |
| Licencias.LicenciaService.Crear | src/main/java/com/licencia/licencia/service/LicenciaService.java:42-48 | the new table and the result are those of `LicenciaRules.Crear`; the table constraints are kept |
| Licencias.LicenciaService.Actualizar | src/main/java/com/licencia/licencia/service/LicenciaService.java:50-59 | the new table and the result are those of `LicenciaRules.Actualizar`; the constraints are kept |
| Licencias.LicenciaService.Eliminar | src/main/java/com/licencia/licencia/service/LicenciaService.java:61-64 | the new table is that of `LicenciaRules.Eliminar`; failure means not found and nothing removed |
| Licencias.LicenciaService.Asignar | src/main/java/com/licencia/licencia/service/LicenciaService.java:70-79 | the new table and the result are those of `LicenciaRules.Asignar`; the constraints are kept |
| Licencias.LicenciaService.Liberar | src/main/java/com/licencia/licencia/service/LicenciaService.java:81-87 | the new table and the result are those of `LicenciaRules.Liberar`; the constraints are kept |
| LicenciaProperties.SavePreservesStoreValid | src/main/java/com/licencia/licencia/model/Licencia.java:16-38 | an accepted write keeps every row well formed and every `clave` unique |
| LicenciaProperties.SaveOutcomePreservesStoreValid | src/main/java/com/licencia/licencia/model/Licencia.java:20-22 | an attempted write, accepted or not, keeps the table valid |
| LicenciaProperties.StepPreservesStoreValid | src/main/java/com/licencia/licencia/service/LicenciaService.java:42-87 | every service call keeps the table valid |
| LicenciaProperties.RunPreservesStoreValid | src/main/java/com/licencia/licencia/service/LicenciaService.java:42-87 | any sequence of calls keeps the table valid |
| LicenciaProperties.StepKeepsConsistent | src/main/java/com/licencia/licencia/service/LicenciaService.java:42-87 | creating an unassigned licence, assigning, releasing or deleting keeps "ASIGNADA iff holder and time are both set" on every row |
| LicenciaProperties.RunKeepsConsistent | src/main/java/com/licencia/licencia/service/LicenciaService.java:42-87 | the same invariant holds after any sequence of such calls |
| LicenciaProperties.ActualizarDoesNotRecheckConsistency | src/main/java/com/licencia/licencia/service/LicenciaService.java:50-59 | an update can store "ASIGNADA" with no holder: the invariant is not checked by `actualizar` (a concrete table) |
| LicenciaProperties.ActualizarCanBreakConsistency | src/main/java/com/licencia/licencia/service/LicenciaService.java:50-59 | on any table, an update to "ASIGNADA" without a holder whose row is well formed and whose `clave` is free succeeds and leaves an inconsistent row in the table |
| LicenciaProperties.AsignarTwiceFails | src/main/java/com/licencia/licencia/service/LicenciaService.java:72-74 | right after a successful assignment, a second one fails as not available and changes nothing |
| LicenciaProperties.LiberarSucceeds | src/main/java/com/licencia/licencia/service/LicenciaService.java:81-87 | on a valid table, releasing a present id never fails |
| LicenciaProperties.LiberarIdempotent | src/main/java/com/licencia/licencia/service/LicenciaService.java:81-87 | releasing twice gives the same table and result as releasing once |
| LicenciaProperties.AsignarSucceeds | src/main/java/com/licencia/licencia/service/LicenciaService.java:70-79 | on a valid table, an available licence is assigned to any holder id that fits its column |
| LicenciaProperties.AssignReleaseReassign | src/main/java/com/licencia/licencia/service/LicenciaService.java:70-87 | assign to one user, a second user is refused, release, then the second user gets the licence |
| LicenciaProperties.CrearRejectsDuplicateClave | src/main/java/com/licencia/licencia/model/Licencia.java:20-22 | creating a licence with another row's `clave` fails and writes nothing |
| LicenciaProperties.ListedAvailableIsAssignable | src/main/java/com/licencia/licencia/service/LicenciaService.java:30-32 | every licence listed as available passes the check `asignar` makes |
| LicenciaProperties.LowercaseStateAssignableButNotListed | src/main/java/com/licencia/licencia/service/LicenciaService.java:72 | the converse fails: a state "disponible" can be assigned but is not listed as available (a concrete row) |
| LicenciaProperties.CaseVariantStateAssignableButNotListed | src/main/java/com/licencia/licencia/service/LicenciaService.java:70-78 | on any valid table, a licence whose state equals "DISPONIBLE" ignoring case but not exactly is never listed as available, yet `asignar` assigns it |
| Validators.ValidateLettersOnly | app/src/main/java/com/example/uinavegacion/domain/Validators.kt:13-17 | accepted iff not blank and every character is A-Z, a-z, an accented vowel, Ñ/ñ or a space; blank gives "El nombre es obligatorio", any other refusal "Solo letras y espacios" |
| Validators.ValidatePhoneDigitsOnly | app/src/main/java/com/example/uinavegacion/domain/Validators.kt:20-32 | accepted iff it starts with "+56 9" and what remains after deleting "+56 9" and spaces, trimmed, is exactly 8 digits; each message in the source's order: blank, prefix, empty, non-digit, length |
| Validators.ValidateStrongPasswordAsWritten | app/src/main/java/com/example/uinavegacion/domain/Validators.kt:35-44 | as written: accepted iff not blank, at least 8 UTF-16 units long, with upper, lower and digit, and no space; no symbol is required; each failure gives its message in the source's order (blank, length, upper, lower, digit, space) |
| Validators.ValidateStrongPassword | app/src/main/java/com/example/uinavegacion/domain/Validators.kt:35-44 | accepted iff not blank, at least 8 UTF-16 units long, with upper, lower, digit and a symbol, and no space; each failure gives its message in the source's order |
| Validators.SymbolCheckNeverFires | app/src/main/java/com/example/uinavegacion/domain/Validators.kt:38-41 | the symbol message is never returned by the validator as written |
| Validators.PasswordWithoutSymbolAccepted | app/src/main/java/com/example/uinavegacion/domain/Validators.kt:41 | "Abcdefg1" is accepted as written and refused for lack of a symbol by the corrected validator |
| Validators.SupplementaryCharactersCountTwice | app/src/main/java/com/example/uinavegacion/domain/Validators.kt:37 | the length is `length` in UTF-16 units: "Ab1" and three emoji, six characters, are nine units and accepted |
| Validators.ValidateConfirm | app/src/main/java/com/example/uinavegacion/domain/Validators.kt:47-50 | a blank confirmation gives its message; otherwise accepted iff it equals the password |
| PhoneFormat.FormatChileanPhone | app/src/main/java/com/example/uinavegacion/ui/viewmodel/AuthViewModel.kt:249-285 | empty iff the input has no digit; otherwise it starts with '+' and has at most 15 characters |
| PhoneFormat.FormatLayoutLong | app/src/main/java/com/example/uinavegacion/ui/viewmodel/AuthViewModel.kt:276-283 | more than 11 digits: "+DD D DDDD DDDD" from the first 11 |
| PhoneFormat.FormatLayoutMid | app/src/main/java/com/example/uinavegacion/ui/viewmodel/AuthViewModel.kt:260-273 | 8 to 11 digits: "+DD D DDDD " and then the rest |
| PhoneFormat.FormatLayoutShort | app/src/main/java/com/example/uinavegacion/ui/viewmodel/AuthViewModel.kt:260-267 | 4 to 7 digits: "+DD D " and then the rest |
| PhoneFormat.FormatLayoutThree | app/src/main/java/com/example/uinavegacion/ui/viewmodel/AuthViewModel.kt:258 | 3 digits: "+DD D" |
| PhoneFormat.FormatLayout | app/src/main/java/com/example/uinavegacion/ui/viewmodel/AuthViewModel.kt:249-285 | the character layout of the output for every digit count |
| PhoneFormat.FormatKeepsDigits | app/src/main/java/com/example/uinavegacion/ui/viewmodel/AuthViewModel.kt:251-283 | the digits of the output are the first min(11, n) digits of the input, in order |
| PhoneFormat.FormatDependsOnDigits | app/src/main/java/com/example/uinavegacion/ui/viewmodel/AuthViewModel.kt:251 | two inputs with the same digits format the same |
| PhoneFormat.FormatIdempotent | app/src/main/java/com/example/uinavegacion/ui/viewmodel/AuthViewModel.kt:249-285 | formatting a formatted value returns it unchanged |
| PhoneFormat.FormatFullShape | app/src/main/java/com/example/uinavegacion/ui/viewmodel/AuthViewModel.kt:276-283 | 11 or more digits give the shape "+DD D DDDD DDDD" |
| PhoneFormat.FormattedPhoneValid | app/src/main/java/com/example/uinavegacion/ui/viewmodel/AuthViewModel.kt:239-245 | the registration validator accepts a formatted phone iff the input had at least 11 digits starting 5, 6, 9 |
| AuthForms.FilterNickname | app/src/main/java/com/example/uinavegacion/ui/viewmodel/AuthViewModel.kt:227 | keeps every letter, digit and '_' with its count and drops every other character |
| AuthForms.FilterNicknameChar | app/src/main/java/com/example/uinavegacion/ui/viewmodel/AuthViewModel.kt:226 | a single character is kept iff it is a letter, a digit or '_' |
| AuthForms.FilterNicknameConcat | app/src/main/java/com/example/uinavegacion/ui/viewmodel/AuthViewModel.kt:226 | filtering a concatenation concatenates the filtered parts, so kept characters keep their order |
| AuthForms.FilterNicknameFixedPoint | app/src/main/java/com/example/uinavegacion/ui/viewmodel/AuthViewModel.kt:227 | the filter leaves a value unchanged iff it has only letters, digits and '_' |
| AuthForms.FilterNicknameIdempotent | app/src/main/java/com/example/uinavegacion/ui/viewmodel/AuthViewModel.kt:225-232 | filtering twice is filtering once |
| AuthForms.RegisterSubmittable | app/src/main/java/com/example/uinavegacion/ui/viewmodel/AuthViewModel.kt:299-304 | when the button is enabled: a non-blank nickname, a valid phone of shape "+56 9 DDDD DDDD", a password the validator as written accepts, and a confirmation equal to it |
| AuthForms.SymbolLessRegistrationSubmittable | app/src/main/java/com/example/uinavegacion/ui/viewmodel/AuthViewModel.kt:286-304 | any submittable registration stays submittable with password and confirmation "Abcdefg1", which has no symbol |
| AuthForms.ChangePasswordSubmittable | app/src/main/java/com/example/uinavegacion/ui/viewmodel/AuthViewModel.kt:371-381 | when the button is enabled: a new password the validator as written accepts, equal to its confirmation and different from the current one |
| AuthForms.AuthViewModel.constructor | app/src/main/java/com/example/uinavegacion/ui/viewmodel/AuthViewModel.kt:79-85 | the three forms start empty with the button disabled |
| AuthForms.AuthViewModel.RecomputeLoginCanSubmit | app/src/main/java/com/example/uinavegacion/ui/viewmodel/AuthViewModel.kt:100-106 | the login button is enabled iff there is no e-mail error and e-mail and password are both non-blank |
| AuthForms.AuthViewModel.OnLoginEmailChange | app/src/main/java/com/example/uinavegacion/ui/viewmodel/AuthViewModel.kt:90-93 | stores the e-mail and its validation, then recomputes the button |
| AuthForms.AuthViewModel.OnLoginPassChange | app/src/main/java/com/example/uinavegacion/ui/viewmodel/AuthViewModel.kt:95-98 | stores the password unvalidated, then recomputes the button |
| AuthForms.AuthViewModel.RecomputeRegisterCanSubmit | app/src/main/java/com/example/uinavegacion/ui/viewmodel/AuthViewModel.kt:299-304 | the register button is enabled iff all five errors are null and all five fields are non-blank |
| AuthForms.AuthViewModel.OnNameChange | app/src/main/java/com/example/uinavegacion/ui/viewmodel/AuthViewModel.kt:225-232 | stores the filtered nickname and its validation, then recomputes the button |
| AuthForms.AuthViewModel.OnRegisterEmailChange | app/src/main/java/com/example/uinavegacion/ui/viewmodel/AuthViewModel.kt:234-237 | stores the e-mail and its validation, then recomputes the button |
| AuthForms.AuthViewModel.OnPhoneChange | app/src/main/java/com/example/uinavegacion/ui/viewmodel/AuthViewModel.kt:239-245 | stores the formatted phone and the validation of the formatted value, then recomputes the button |
| AuthForms.AuthViewModel.OnRegisterPassChange | app/src/main/java/com/example/uinavegacion/ui/viewmodel/AuthViewModel.kt:287-292 | stores the password and the as-written strength check, re-checks the confirmation against it, then recomputes the button |
| AuthForms.AuthViewModel.OnConfirmChange | app/src/main/java/com/example/uinavegacion/ui/viewmodel/AuthViewModel.kt:294-297 | stores the confirmation and its check against the password, then recomputes the button |
| AuthForms.AuthViewModel.RecomputeChangePasswordCanSubmit | app/src/main/java/com/example/uinavegacion/ui/viewmodel/AuthViewModel.kt:371-381 | enabled iff no error, all three fields non-blank, new equal to confirmation, and current different from new |
| AuthForms.AuthViewModel.OnCurrentPasswordChange | app/src/main/java/com/example/uinavegacion/ui/viewmodel/AuthViewModel.kt:343-348 | stores the current password, clears its error, then recomputes the button |
| AuthForms.AuthViewModel.OnNewPasswordChange | app/src/main/java/com/example/uinavegacion/ui/viewmodel/AuthViewModel.kt:350-359 | stores the new password with the as-written strength check and the confirmation's check against it, then recomputes |
| AuthForms.AuthViewModel.OnConfirmPasswordChange | app/src/main/java/com/example/uinavegacion/ui/viewmodel/AuthViewModel.kt:361-369 | stores the confirmation and its check against the new password, then recomputes |
| ProfileEdit.FormatChileanPhoneNumber | app/src/main/java/com/example/uinavegacion/ui/screen/ProfileEditScreen.kt:534-570 | the screen's own formatter gives the registration formatter's output on every input |
| ProfileEdit.SavePhoneError | app/src/main/java/com/example/uinavegacion/ui/screen/ProfileEditScreen.kt:465-481 | a blank phone passes; a non-blank phone without "+56" fails; the only message is "Formato incorrecto" |
| ProfileEdit.SaveError | app/src/main/java/com/example/uinavegacion/ui/screen/ProfileEditScreen.kt:459-481 | no signed-in user stops the save before the phone is checked |
| ProfileEdit.SavePhoneVerdict | app/src/main/java/com/example/uinavegacion/ui/screen/ProfileEditScreen.kt:472-480 | a non-blank phone passes iff it starts with "+56" and what follows, spaces removed and trimmed, is 9 digits starting with 9 |
| ProfileEdit.FormattedPhoneAcceptedOnSave | app/src/main/java/com/example/uinavegacion/ui/screen/ProfileEditScreen.kt:534-570 | a formatted phone passes the save check iff the input had no digit, or at least 11 digits starting 5, 6, 9 |
| ProfileEdit.SaveCheckMatchesRegistration | app/src/main/java/com/example/uinavegacion/ui/screen/ProfileEditScreen.kt:465-481 | on formatted values the save check agrees with the registration validator, except that it lets an empty phone through |
| ProfileEdit.ProfileEditForm.constructor | app/src/main/java/com/example/uinavegacion/ui/screen/ProfileEditScreen.kt:45-82 | the screen starts with no user, an empty phone, not loading and no message |
| ProfileEdit.ProfileEditForm.OnPhoneChange | app/src/main/java/com/example/uinavegacion/ui/screen/ProfileEditScreen.kt:354 | the field holds the formatted input |
| ProfileEdit.ProfileEditForm.Save | app/src/main/java/com/example/uinavegacion/ui/screen/ProfileEditScreen.kt:459-483 | the write starts iff the guard finds no error; otherwise the message is shown and loading is untouched |
| Cart.IndexOf | app/src/main/java/com/example/uinavegacion/viewmodel/CartViewModel.kt:55 | the first position holding the id, or -1 exactly when no item has it |
| Cart.Without | app/src/main/java/com/example/uinavegacion/viewmodel/CartViewModel.kt:106 | never longer than the cart |
| Cart.WithQuantity | app/src/main/java/com/example/uinavegacion/viewmodel/CartViewModel.kt:122-124 | same length; items with the id get the quantity and the others are unchanged |
| Cart.InCartIndex | app/src/main/java/com/example/uinavegacion/viewmodel/CartViewModel.kt:141-143 | a game is in the cart iff it has an index |
| Cart.QuantityZeroIffAbsent | app/src/main/java/com/example/uinavegacion/viewmodel/CartViewModel.kt:145-147 | in a valid cart the quantity is 0 iff the game is not in the cart |
| Cart.WithoutMembers | app/src/main/java/com/example/uinavegacion/viewmodel/CartViewModel.kt:106 | removal keeps exactly the items with another id |
| Cart.WithoutUnique | app/src/main/java/com/example/uinavegacion/viewmodel/CartViewModel.kt:105-107 | with unique ids, removal drops exactly the item at its index and keeps the rest in order |
| Cart.WithQuantityUnique | app/src/main/java/com/example/uinavegacion/viewmodel/CartViewModel.kt:122-124 | with unique ids, setting a quantity changes only the item at its index |
| Cart.TotalUpdate | app/src/main/java/com/example/uinavegacion/viewmodel/CartViewModel.kt:133-135 | replacing one item changes the total by the difference of quantities |
| Cart.TotalWithout | app/src/main/java/com/example/uinavegacion/viewmodel/CartViewModel.kt:105-107 | removing an id takes its quantity off the total |
| Cart.WithoutValid | app/src/main/java/com/example/uinavegacion/viewmodel/CartViewModel.kt:105-107 | removal keeps ids unique and every quantity within its stock |
| Cart.TotalAtLeastSize | app/src/main/java/com/example/uinavegacion/viewmodel/CartViewModel.kt:133-135 | a valid cart holds at least as many units as items |
| Cart.CartViewModel.constructor | app/src/main/java/com/example/uinavegacion/viewmodel/CartViewModel.kt:35-42 | the cart starts empty with no messages |
| Cart.CartViewModel.AddGame | app/src/main/java/com/example/uinavegacion/viewmodel/CartViewModel.kt:44-95 | a present game gains one unit unless that exceeds its stored stock; a new game is appended with quantity 1 unless the given stock is not positive; each outcome sets its messages; success adds one unit to the total, failure changes no item; the cart invariant is kept |
| Cart.CartViewModel.RemoveGame | app/src/main/java/com/example/uinavegacion/viewmodel/CartViewModel.kt:105-107 | exactly the items with another id remain, in order; the total loses that game's quantity |
| Cart.CartViewModel.UpdateQuantity | app/src/main/java/com/example/uinavegacion/viewmodel/CartViewModel.kt:109-127 | a quantity of 0 or less removes the game and succeeds; an absent game fails; a quantity above the stock fails with its message; otherwise only that item's quantity changes |
| Cart.CartViewModel.ClearCart | app/src/main/java/com/example/uinavegacion/viewmodel/CartViewModel.kt:129-131 | the cart becomes empty |
| Cart.CartViewModel.GetTotalItems | app/src/main/java/com/example/uinavegacion/viewmodel/CartViewModel.kt:133-135 | the sum of quantities, at least the number of items |
| Cart.CartViewModel.GetQuantity | app/src/main/java/com/example/uinavegacion/viewmodel/CartViewModel.kt:145-147 | the quantity of the cart line holding the game, 0 exactly when the game is not in the cart, never negative |
| Cart.CartViewModel.IsInCart | app/src/main/java/com/example/uinavegacion/viewmodel/CartViewModel.kt:141-143 | in the cart iff the game has a line, that is a first index |
| Games.JavaHashCode | app/src/main/java/com/example/uinavegacion/data/repository/GameRepository.kt:433 | Java's `String.hashCode` over UTF-16 units, within the 32-bit range |
| Games.HashUnitsIsPolynomial | app/src/main/java/com/example/uinavegacion/data/repository/GameRepository.kt:433 | the wrapped Horner evaluation equals the documented sum of `u[i]*31^(n-1-i)` reduced to a 32-bit `int` |
| Games.RemoteIdToLong | app/src/main/java/com/example/uinavegacion/data/repository/GameRepository.kt:432-433 | the absolute hash plus one billion, between 10^9 and 10^9 + 2^31 |
| Games.ToEntity | app/src/main/java/com/example/uinavegacion/data/repository/GameRepository.kt:409-430 | id from the hashed remote id; stock 20 and discount 0; active iff the state is null or "ACTIVO" ignoring case; category and genre default to 1 when missing or not numeric; the remote id is kept |
| Games.ToEntityActiveCaseInsensitive | app/src/main/java/com/example/uinavegacion/data/repository/GameRepository.kt:423 | any remote state whose upper-case form is "ACTIVO", such as "activo" or "Activo", gives an active game |
| Games.GameRepository.constructor | app/src/main/java/com/example/uinavegacion/data/repository/GameRepository.kt:16-17 | the repository starts on a table with every row under its own id |
| Games.GameRepository.WriteStock | app/src/main/java/com/example/uinavegacion/data/local/juego/JuegoDao.kt:82-83 | the stock of that row is set and nothing else changes; an absent id changes nothing |
| Games.GameRepository.UpdateStock | app/src/main/java/com/example/uinavegacion/data/repository/GameRepository.kt:214-224 | a negative stock is refused without writing; any other value is written as is |
| Games.GameRepository.DecreaseStock | app/src/main/java/com/example/uinavegacion/data/repository/GameRepository.kt:226-265 | quantity, existence, active state and stock are checked in that order, and each failure changes nothing; success writes and returns the old stock minus the quantity, never negative, whatever the remote service did |
| Games.GameRepository.DeactivateGame | app/src/main/java/com/example/uinavegacion/data/repository/GameRepository.kt:179-190 | succeeds iff the row exists, and then only its active flag is cleared |
| Resenas.FindLive | app/src/main/java/com/example/uinavegacion/data/local/resena/ResenaDao.kt:36-37 | finds a review iff the user has a non-deleted review of that game, and returns one |
| Resenas.Live | app/src/main/java/com/example/uinavegacion/data/local/resena/ResenaDao.kt:24-25 | never more reviews than the table holds |
| Resenas.GetAllResenas | app/src/main/java/com/example/uinavegacion/data/repository/ResenaRepository.kt:57-63 | every review when deleted ones are included, only the non-deleted ones otherwise |
| Resenas.AdmissionError | app/src/main/java/com/example/uinavegacion/data/repository/ResenaRepository.kt:20-33 | an existing live review is refused first, then a rating outside 1..5, then a blank comment; accepted iff none applies |
| Resenas.LiveMembers | app/src/main/java/com/example/uinavegacion/data/local/resena/ResenaDao.kt:24-25 | the live listing holds exactly the non-deleted reviews |
| Resenas.LiveConcat | app/src/main/java/com/example/uinavegacion/data/local/resena/ResenaDao.kt:24-25 | listing live reviews distributes over concatenation |
| Resenas.LiveOfUndeleted | app/src/main/java/com/example/uinavegacion/data/local/resena/ResenaDao.kt:24-25 | with nothing deleted both listings agree |
| Resenas.AdmittedThenDuplicate | app/src/main/java/com/example/uinavegacion/data/repository/ResenaRepository.kt:20-46 | an admitted review keeps ids unique, keeps one live review per user and game when the table had it, and a second review by that user of that game is then refused as a duplicate |
| Resenas.ResenaRepository.constructor | app/src/main/java/com/example/uinavegacion/data/repository/ResenaRepository.kt:9-11 | the table starts empty |
| Resenas.ResenaRepository.Insert | app/src/main/java/com/example/uinavegacion/data/local/resena/ResenaDao.kt:12-13 | the row is appended under the next id, which is returned |
| Resenas.ResenaRepository.AddResena | app/src/main/java/com/example/uinavegacion/data/repository/ResenaRepository.kt:12-51 | a refused review writes nothing and returns its message; otherwise exactly one live review with the trimmed comment is appended and its id returned; one live review per user and game is kept when the table had it |
| Resenas.SetDeleted | app/src/main/java/com/example/uinavegacion/data/local/resena/ResenaDao.kt:39-45 | the UPDATE by id: the row with that id gets the flag, every other row is unchanged, the order is kept |
| Resenas.SetDeletedValid | app/src/main/java/com/example/uinavegacion/data/local/resena/ResenaDao.kt:39-45 | marking deleted or restored keeps the ids and so the table invariant |
| Resenas.DeleteKeepsOneLive | app/src/main/java/com/example/uinavegacion/data/local/resena/ResenaDao.kt:40-41 | soft deletion never creates a second live review of a game by a user |
| Resenas.RestoreBreaksOneLive | app/src/main/java/com/example/uinavegacion/data/local/resena/ResenaDao.kt:44-45 | restoring a deleted review whose user already has a live review of that game leaves two live reviews |
| Resenas.DeleteAddRestoreHistory | app/src/main/java/com/example/uinavegacion/data/repository/ResenaRepository.kt:12-93 | add, delete, add again (admitted) and restore the first: the table then holds two live reviews of one game by one user |
| Resenas.ResenaRepository.DeleteResena | app/src/main/java/com/example/uinavegacion/data/repository/ResenaRepository.kt:73-82 | the review with that id is marked deleted and nothing else changes; one live review per user and game is kept |
| Resenas.ResenaRepository.RestoreResena | app/src/main/java/com/example/uinavegacion/data/repository/ResenaRepository.kt:84-93 | the review with that id is live again and nothing else changes, with no duplicate check |
| Library.GroupOf | app/src/main/java/com/example/uinavegacion/viewmodel/LibraryViewModel.kt:137-139 | "Instalado", "Disponible", and "Descargando" or "Actualizando" are the three counted groups |
| Library.FilterGroup | app/src/main/java/com/example/uinavegacion/viewmodel/LibraryViewModel.kt:123-129 | "Instalados", "Disponibles" and "Descargando" select a group; any other tab selects every game |
| Library.GetGamesByStatus | app/src/main/java/com/example/uinavegacion/viewmodel/LibraryViewModel.kt:122-130 | never longer than the library; "Todos" and unknown tabs return it unchanged |
| Library.WithoutGame | app/src/main/java/com/example/uinavegacion/viewmodel/LibraryViewModel.kt:177 | never longer than the library |
| Library.WithStatus | app/src/main/java/com/example/uinavegacion/viewmodel/LibraryViewModel.kt:104-106 | same length; games with the id get the status and the others are unchanged |
| Library.CountIn | app/src/main/java/com/example/uinavegacion/viewmodel/LibraryViewModel.kt:137-139 | never more than the library's size |
| Library.GamesByStatusMembers | app/src/main/java/com/example/uinavegacion/viewmodel/LibraryViewModel.kt:122-130 | a tab shows exactly the games its filter selects |
| Library.GamesByStatusSubsequence | app/src/main/java/com/example/uinavegacion/viewmodel/LibraryViewModel.kt:122-130 | a tab is an order-preserving sublist of the library |
| Library.WithoutGameMembers | app/src/main/java/com/example/uinavegacion/viewmodel/LibraryViewModel.kt:176-178 | removal keeps exactly the games with another id |
| Library.WithoutGameSubsequence | app/src/main/java/com/example/uinavegacion/viewmodel/LibraryViewModel.kt:176-178 | removal keeps the other games in order |
| Library.WithStatusAbsent | app/src/main/java/com/example/uinavegacion/viewmodel/LibraryViewModel.kt:103-106 | a status change for an id nobody has changes nothing |
| Library.CountsPartition | app/src/main/java/com/example/uinavegacion/viewmodel/LibraryViewModel.kt:133-141 | every game is in exactly one group |
| Library.CountIsFilterLength | app/src/main/java/com/example/uinavegacion/viewmodel/LibraryViewModel.kt:122-141 | each group's count is the length of its tab |
| Library.GetLibraryStats | app/src/main/java/com/example/uinavegacion/viewmodel/LibraryViewModel.kt:133-141 | the total is the library's size, each count is its tab's length, and the three counts add up to at most the total |
| Library.FirstMatch | app/src/main/java/com/example/uinavegacion/viewmodel/LibraryViewModel.kt:144-158 | the first rule whose word the name contains ignoring case, or -1 when none does |
| Library.GenreIsFirstMatch | app/src/main/java/com/example/uinavegacion/viewmodel/LibraryViewModel.kt:144-158 | the genre is that of the first matching rule, and "Acción" when none matches |
| Library.GetGenreForGame | app/src/main/java/com/example/uinavegacion/viewmodel/LibraryViewModel.kt:144-158 | a name containing "Cyberpunk" is an RPG, and the genre is always one of the eight the chain names |
| Library.LibraryViewModel.constructor | app/src/main/java/com/example/uinavegacion/viewmodel/LibraryViewModel.kt:26 | the library starts empty |
| Library.LibraryViewModel.UpdateGameStatus | app/src/main/java/com/example/uinavegacion/viewmodel/LibraryViewModel.kt:103-106 | only the status of games with that id changes; length, order and other fields are kept |
| Library.LibraryViewModel.InstallGame | app/src/main/java/com/example/uinavegacion/viewmodel/LibraryViewModel.kt:161-165 | the game's status becomes "Descargando" |
| Library.LibraryViewModel.InstallGameNumber | app/src/main/java/com/example/uinavegacion/viewmodel/LibraryViewModel.kt:168-173 | the game "game_n" starts downloading; nothing changes when no game has that id |
| Library.LibraryViewModel.RemoveGame | app/src/main/java/com/example/uinavegacion/viewmodel/LibraryViewModel.kt:176-178 | exactly the games with another id remain, as an order-preserving sublist |
| Library.LibraryViewModel.ClearLibrary | app/src/main/java/com/example/uinavegacion/viewmodel/LibraryViewModel.kt:181-183 | the library becomes empty |
| Session.Apply | app/src/main/java/com/example/uinavegacion/data/SessionManager.kt:24-46 | user sign-in sets the user and clears the administrator; administrator sign-in does the reverse; both set logged-in; sign-out clears everything and sets logged-out; a saved token changes only the token |
| Session.GetCurrentUserEmail | app/src/main/java/com/example/uinavegacion/data/SessionManager.kt:60-62 | the user's e-mail if a user is signed in, else the administrator's, else none |
| Session.GetCurrentUserId | app/src/main/java/com/example/uinavegacion/data/SessionManager.kt:72-74 | present iff a user is signed in, and then it is the user's id |
| Session.HasToken | app/src/main/java/com/example/uinavegacion/data/SessionManager.kt:52-54 | a token held is set and non-empty |
| Session.IsAdmin | app/src/main/java/com/example/uinavegacion/data/SessionManager.kt:56-58 | with the invariant, a signed-in administrator means signed in and no user id |
| Session.IsModerator | app/src/main/java/com/example/uinavegacion/data/SessionManager.kt:88-90 | a moderator is an administrator |
| Session.ApplyKeepsExclusive | app/src/main/java/com/example/uinavegacion/data/SessionManager.kt:24-41 | every operation keeps the user and the administrator exclusive, and logged-in true iff one is set |
| Session.RunKeepsExclusive | app/src/main/java/com/example/uinavegacion/data/SessionManager.kt:24-46 | after any sequence of operations the user and the administrator are never both set |
| Session.InitialExclusive | app/src/main/java/com/example/uinavegacion/data/SessionManager.kt:12-22 | the initial session has nobody signed in and no token |
| Session.AfterLoginUser | app/src/main/java/com/example/uinavegacion/data/SessionManager.kt:24-28 | after user sign-in: that user's id and e-mail, no administrator and no moderator, the token kept |
| Session.AfterLoginAdmin | app/src/main/java/com/example/uinavegacion/data/SessionManager.kt:30-34 | after administrator sign-in: no user id, the administrator's e-mail, and moderator iff the role is "MODERATOR" |
| Session.AfterLogout | app/src/main/java/com/example/uinavegacion/data/SessionManager.kt:36-41 | after sign-out: no e-mail, no user id, no administrator, no token |
| Session.AfterSaveToken | app/src/main/java/com/example/uinavegacion/data/SessionManager.kt:44-54 | the saved token is handed back, and it counts as held iff it is not blank |
| Session.SessionManager.constructor | app/src/main/java/com/example/uinavegacion/data/SessionManager.kt:12-22 | the singleton starts with nobody signed in, logged-in unset and no token |
| Session.SessionManager.LoginUser | app/src/main/java/com/example/uinavegacion/data/SessionManager.kt:24-28 | the new state is `Apply` of user sign-in; the invariant is kept |
| Session.SessionManager.LoginAdmin | app/src/main/java/com/example/uinavegacion/data/SessionManager.kt:30-34 | the new state is `Apply` of administrator sign-in; the invariant is kept |
| Session.SessionManager.Logout | app/src/main/java/com/example/uinavegacion/data/SessionManager.kt:36-41 | the new state is `Apply` of sign-out; the invariant is kept |
| Session.SessionManager.SaveToken | app/src/main/java/com/example/uinavegacion/data/SessionManager.kt:44-46 | the new state is `Apply` of saving the token; the invariant is kept |
| Session.SessionManager.GetToken | app/src/main/java/com/example/uinavegacion/data/SessionManager.kt:48-50 | the token the session holds |
| WindowSize.ClassifyDevice | app/src/main/java/com/example/uinavegacion/ui/utils/WindowSizeUtils.kt:51-58 | 1200 dp or wider is a desktop; under 600 dp a phone in its orientation; in between a tablet in its orientation |
| WindowSize.ChooseNavigation | app/src/main/java/com/example/uinavegacion/ui/utils/WindowSizeUtils.kt:61-68 | a permanent drawer iff 840 dp or wider; below that a rail iff landscape, else bottom navigation |
| WindowSize.RememberWindowInfo | app/src/main/java/com/example/uinavegacion/ui/utils/WindowSizeUtils.kt:43-80 | tablet iff 600 dp or wider; landscape iff wider than tall; the device type and navigation are as classified |
| WindowSize.GetGridColumns | app/src/main/java/com/example/uinavegacion/ui/utils/WindowSizeUtils.kt:90-96 | always between 2 and 5 columns |
| WindowSize.ShouldUseTwoPaneLayout | app/src/main/java/com/example/uinavegacion/ui/utils/WindowSizeUtils.kt:119-120 | two panes iff the device type is a landscape tablet or larger, and then at least four grid columns |
| WindowSize.GridColumnsMonotone | app/src/main/java/com/example/uinavegacion/ui/utils/WindowSizeUtils.kt:90-96 | a later device type in declaration order never has fewer columns |
| WindowSize.TwoPaneWindows | app/src/main/java/com/example/uinavegacion/ui/utils/WindowSizeUtils.kt:119-120 | two panes iff 1200 dp or wider, or 600 dp or wider in landscape |
| WindowSize.WiderNeverSmaller | app/src/main/java/com/example/uinavegacion/ui/utils/WindowSizeUtils.kt:51-58 | in the same orientation, a wider window never gets a smaller device type or fewer columns |
| WindowSize.ExpandedBreakpointIrrelevantToDevice | app/src/main/java/com/example/uinavegacion/ui/utils/WindowSizeUtils.kt:51-68 | between 600 and 1200 dp the 840 dp breakpoint changes the navigation but never the device type |

## Left out

- Concurrency: `asignar` reads, checks and saves with no lock or transaction, and the model runs every call in sequence.
- Pagination and ordering: `listar` and `listarDisponibles` return the matching rows as a map, without pages or order. The review listings keep table order, not `ORDER BY fechaCreacion DESC`.
- LicenciaService.ObtenerDisponible: among licences expiring on the same day, any may be returned. The repository's tie-break is not modelled.
- `Instant.now()`, the review creation date and the current date are parameters.
- Injected validators are parameters (`string -> Option<string>`): `validateEmail` (it uses Android's e-mail pattern) and `validateNickname`.
- Exceptions from the database layer, which the repositories catch and wrap, are not modelled. Nor are the HTTP and remote catalogue calls. GameRepository.DecreaseStock takes the remote answer as a parameter, and the local write ignores it.
- The asynchronous submit handlers are not modelled: `submitLogin`, `submitRegister`, `submitChangePassword`, the `clear*Result` helpers and `AuthViewModel.logout`. The same goes for the rest of `ProfileEditScreen` after the guard: the database update and the photo handling.
- `CartViewModel.checkout`, `checkoutLegacy`, `getTotalPrice` and the two message-clearing helpers are not modelled. Prices are `real` values that are carried but never used in arithmetic.
- Cart.CartViewModel.AddGame: does not model 32-bit `Int` overflow of `quantity + 1`, because quantities are bounded by the stored stock and are unbounded integers here. `getTotalItems` likewise ignores overflow of the sum.
- GameRepository: the other operations are database and network plumbing and are not modelled. These are listing, syncing, adding, updating, searching, export, diagnostics, deletion and reactivation.
- ResenaEntity.kt is not part of this model. The review row's fields come from the constructor call in `addResena` and the DAO queries. Row ids are handed out by the table as increasing numbers.
- ResenaRepository: `getResenasByJuegoId`, `getAverageRating` (floating point) and `getResenaCount` are not modelled. `deleteResena` and `restoreResena` always succeed here, since database exceptions are not modelled.
- LibraryViewModel: `addPurchasedGames` and `loadUserLibrary` read the database through flows and are not modelled. Neither is the logging half of `updateGameStatus`.
- SessionManager: the plain field reads are not modelled: `getCurrentUserName`, `getCurrentUserPhotoUri`, `getCurrentUserRemoteId`, `getCurrentUser` and `getCurrentAdmin`. LiveData observers are not modelled either.
- WindowSizeUtils: the width and height from the Compose configuration are parameters. `getHorizontalPadding`, `getMaxContentWidth` and `getItemSpacing` (dp constants) are not modelled.
- Character classes: whitespace is exact over all of Unicode, with Kotlin's `isWhitespace` (which also counts U+00A0, U+2007 and U+202F) kept apart from Java's `Character.isWhitespace`. `isDigit`, `isLetterOrDigit`, `isUpperCase`, `isLowerCase`, `toUpperCase` and `toLowerCase` are exact on Latin-1 (U+0000-U+00FF) only; outside it, letters and digits of other scripts are not recognised, and the only case mappings modelled for characters outside Latin-1 are those of Ÿ, the dotless i, the long s, the Kelvin sign and the dotted capital I, whose counterparts are in Latin-1. `toLongOrNull` accepts ASCII digits only.
- String lengths: Kotlin's `length` counts UTF-16 units, and the password check counts those. The phone checks compare only lengths of digit strings, where units and characters agree. The licence table's column limits are counted in characters; the database's own counting is not part of this model.
- The `@NotBlank` constraint on `clave` is read as Java's `String.isBlank`; the validation provider's own whitespace test is not part of this model.

## Findings

| source | as written | input that shows it | evidently intended | confidence | as-written member | corrected member |
|---|---|---|---|---|---|---|
| app/src/main/java/com/example/uinavegacion/domain/Validators.kt:41 | the symbol check rejects a password only when no character is a letter or digit. A digit has already been required, and a digit is a letter or digit, so this never fires. | "Abcdefg1" is accepted although it has no symbol | reject a password with no character that is neither letter nor digit, "Debe incluir un símbolo" | high (not executed) | Validators.ValidateStrongPasswordAsWritten, Validators.SymbolCheckNeverFires, Validators.PasswordWithoutSymbolAccepted | Validators.ValidateStrongPassword |

The registration and change-password forms in `AuthForms` call the validator as written, as the source does, so the missing symbol check reaches the forms: `AuthForms.SymbolLessRegistrationSubmittable` shows a symbol-less password enabling the registration button. `Validators.ValidateStrongPassword` is the intended behaviour, proved beside it.
