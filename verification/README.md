# client-ease authentication slice, modelled in Dafny

This project models the authentication and access-control part of the
client-ease web application (Flask, SQLAlchemy, Flask-Login, wtforms):

- the `User` record: setting and checking a password, the default role, and
  reset-password tokens signed over the user's email with a secret key and a
  salt, valid for 86400 seconds (`auth_models.dfy`, module `AuthModels`);
- the `/login`, `/register` and `/logout` routes as transitions over the user
  table and the login session (`auth_routes.dfy`, module `AuthRoutes`);
- the `admin_only` view decorator (`decorators.dfy`, module `Decorators`);
- the logging helpers: message composition for `log_info`, `log_warning`,
  `log_debug`, `log_error`, and the context maps of `log_user_action` and
  `log_security_event` (`logger.dfy`, module `Logger`);
- the `seed-db` command that inserts the Admin, User and Customer roles when
  they are missing (`commands.dfy`, module `Commands`).

The two libraries the credential code calls are stand-ins in `security.dfy`
(module `Security`): werkzeug's password hash is an injective digest under a
per-call salt, and itsdangerous' timed serializer is an ideal MAC over the
payload and its timestamp, keyed by the secret key and the salt. `Wrappers`
holds `Option` and `Result`.

Mutable state keeps the source's form: `User`, the user table (`UserStore`),
the login session (`Session`) and the role table (`RoleTable`) are classes
whose methods state the new state; the decisions, token logic, log records
and the seed plan are functions, lemmas and read-only methods. Time, the
random password salt, the `Email()` validator and the configuration values
are parameters.

Emails are compared exactly (no lower-casing, as in SQLite, the database the
configuration falls back to), registration does not log the
new user in, the routes write no audit records, and there is no
email-verification flag or token purpose. A registration whose email is
already taken is not checked by the route; the table's UNIQUE constraint
makes the commit fail and the exception reaches the caller (`ServerError`).

## Model

| member | source | states |
|---|---|---|
| `Security.Hash` | app/models/auth_models.py:44-46 | the stored hash accepts the password it was made from and records the per-call salt |
| `Security.CheckOnlyOriginal` | app/models/auth_models.py:48-50 | a stored hash accepts no password other than the one it was made from |
| `Security.SaltsSeparateHashes` | app/models/auth_models.py:46 | the same password hashed under two salts gives two different stored values |
| `Security.Dumps` | app/models/auth_models.py:54-56 | a fresh token carries the payload and the time it was issued |
| `Security.Loads` | app/models/auth_models.py:61-65 | loading succeeds iff the signature is the one the secret key and salt give for that payload and time and the age is between 0 and the maximum; it then yields the payload; expiry is reported only for a genuine signature |
| `Security.LoadsDumps` | app/models/auth_models.py:52-65 | a token loaded with its own key and salt within its age gives back the payload |
| `Security.LoadsRejectsOtherSalt` | app/models/auth_models.py:63-65 | a token made under one salt is a bad signature under any other salt |
| `Security.LoadsRejectsOtherSecret` | app/models/auth_models.py:61-65 | a token made under one secret key is a bad signature under any other |
| `Security.LoadsRejectsExpired` | app/models/auth_models.py:63-65 | a genuine token older than the maximum age is expired |
| `Security.LoadsRejectsTampered` | app/models/auth_models.py:62-69 | a genuine signature attached to a different payload or timestamp is a bad signature |
| `AuthModels.User.constructor` | app/models/auth_models.py:17-34 | a new user has the given names and email, and no id, hash or role yet: the role's column default is applied only on insert |
| `AuthModels.User.SetPassword` | app/models/auth_models.py:44-46 | the stored hash is replaced by the hash of the new password; afterwards `check_password` accepts that password and no other |
| `AuthModels.User.CheckPassword` | app/models/auth_models.py:48-50 | read-only; holds iff the stored hash is the hash of the password under the stored salt; requires a stored hash, which the NOT NULL column gives every stored row |
| `AuthModels.User.GenerateResetPasswordToken` | app/models/auth_models.py:52-56 | fails iff the salt key is missing from the configuration; otherwise the token loads back, at issue time, to this user's email |
| `AuthModels.UserStore.FindByEmail` | app/models/auth_models.py:70-71 | finds the one stored user whose email equals the argument exactly, or reports that none has it |
| `AuthModels.UserStore.LoadUser` | app/models/auth_models.py:74-77 | yields the stored user with that id iff the id is in the table |
| `AuthModels.UserStore.Insert` | app/auth/auth_routes.py:47-48 | the insert succeeds iff the user has a hash and no stored user has its email; on success the user gets the next id, an unset role becomes the default role 2, and the user is the only new row; otherwise the table and the user are unchanged; emails stay unique |
| `AuthModels.VerifyResetPasswordToken` | app/models/auth_models.py:58-71 | yields a stored user iff the salt is configured, the token loads within 86400 seconds and a stored user has the payload as email; that user's email is the payload |
| `AuthModels.ResetTokenRoundTrip` | app/models/auth_models.py:52-71 | a token issued for a stored user and presented within 24 hours resolves to that same user |
| `AuthModels.ResetTokenExpires` | app/models/auth_models.py:62-69 | presented more than 24 hours after issue, a token resolves to no one |
| `AuthModels.ResetTokenUnknownEmail` | app/models/auth_models.py:70-71 | a well-signed token whose email no stored user has resolves to no one |
| `AuthRoutes.RequiredIffNonSpace` | app/auth/auth_forms.py:27-32 | `DataRequired()` (non-empty data whose stripped form is non-empty) accepts a field iff it holds a character that is not whitespace |
| `AuthRoutes.LoginAccepted` | app/auth/auth_forms.py:37-41 | only a POST with a valid CSRF token is accepted, and then the email passes `Email()` and neither the email nor the password is blank |
| `AuthRoutes.RegistrationAccepted` | app/auth/auth_forms.py:26-33 | only a POST with a valid CSRF token is accepted, and then the email passes `Email()`, no name, email or password is blank and the confirmation equals the password |
| `AuthRoutes.RegistrationGivesLogin` | app/auth/auth_forms.py:26-41 | the email and password of an accepted registration also pass the login form |
| `AuthRoutes.CurrentUser` | app/models/auth_models.py:74-77 | the current user is the stored user whose id the session holds, and there is none iff the session holds no id or an id not in the table |
| `AuthRoutes.Login` | app/auth/auth_routes.py:12-26 | authenticated: redirect to the index, session untouched; form not accepted: the form again, session untouched; unknown email and wrong password: the same redirect with the same flash, session untouched; otherwise the session holds exactly the found user with the form's remember flag |
| `AuthRoutes.Register` | app/auth/auth_routes.py:29-54 | authenticated or form not accepted: no user added; email taken: the commit fails and nothing is added; otherwise exactly one new user with the submitted names, email, a hash accepting the submitted password and role 2, a redirect to the login page, and the session unchanged |
| `AuthRoutes.Logout` | app/auth/auth_routes.py:57-61 | always redirects to the index and leaves no one logged in; clears the session only when someone was logged in |
| `AuthRoutes.RegisterThenLogin` | app/auth/auth_routes.py:12-54 | registering and then logging in with the same email and password logs the new user in |
| `Decorators.AdminOnly` | app/utils/decorators.py:22-30 | the view runs iff the user is authenticated and has role 1, and then its result for the same arguments is returned unchanged; otherwise 403 |
| `Decorators.AnonymousForbidden` | app/utils/decorators.py:25-27 | an unauthenticated visitor gets 403 whatever the role id |
| `Decorators.DefaultRoleForbidden` | app/utils/decorators.py:25-27 | a user with the default role 2 gets 403 |
| `Logger.WithContext` | app/utils/logger.py:12-13 | the message is kept as a prefix; it is unchanged iff there are no keyword arguments, otherwise exactly the context separator and the arguments' dictionary text follow |
| `Logger.LogInfo` | app/utils/logger.py:10-14 | an info call with the message plus the context suffix |
| `Logger.LogWarning` | app/utils/logger.py:17-21 | a warning call with the message plus the context suffix |
| `Logger.LogDebug` | app/utils/logger.py:33-37 | a debug call with the message plus the context suffix |
| `Logger.LogError` | app/utils/logger.py:24-30 | the error text comes before the context suffix and only for a truthy error; the traceback is requested iff the error is not `None` |
| `Logger.KwargsMapKeys` | app/utils/logger.py:45 | the keyword dictionary's keys are exactly the keyword names |
| `Logger.KwargsMapBinds` | app/utils/logger.py:40-45 | each keyword name (names are distinct, as Python requires) is bound to the value passed with it |
| `Logger.LogUserAction` | app/utils/logger.py:40-46 | an info record whose context has exactly the action, the user id when truthy, and every keyword argument with its value; no keyword can be named `action` or `user_id`, so both keep their values |
| `Logger.LogSecurityEvent` | app/utils/logger.py:49-57 | a warning record whose context has exactly the event, `security_event = True`, the user id and address when truthy, and every keyword argument with its value; no keyword can be named after a parameter, so only `security_event` can be replaced by one |
| `Commands.Missing` | app/commands.py:15-16 | the roles of a list whose name the table lacks: exactly those, and none when every name is present |
| `Commands.PlanSeed` | app/commands.py:15-23 | the loop adds exactly the listed roles whose name the table lacks, in list order, although each query also sees the roles added earlier in the run |
| `Commands.Commit` | app/commands.py:16-26 | a successful transaction keeps every existing row, stores every pending role under its id, adds nothing else and keeps names unique; a pending role whose id or name is taken fails it, at the autoflush before a later query or at the commit |
| `Commands.SeedProvidesAll` | app/commands.py:10-26 | after a successful run roles named Admin, User and Customer all exist |
| `Commands.SeedOnlyAddsListed` | app/commands.py:15-23 | existing rows, listed or not, are neither removed nor modified, and every new row is a listed role whose name was missing |
| `Commands.SeedIdempotent` | app/commands.py:15-26 | a second run changes nothing |
| `Commands.SeedEmptyTable` | app/commands.py:10-26 | on an empty table the roles are stored as Admin = 1, User = 2, Customer = 3 with their descriptions |
| `Commands.SeedIdClash` | app/commands.py:17-26 | a renamed role holding id 1 makes the transaction fail, at the autoflush before the next query, so no role is added |
| `Commands.RoleTable.SeedDb` | app/commands.py:8-26 | the table becomes the result of one seeding run, or stays as it was when the transaction fails |

## Left out

- Logging sinks: the calls on `current_app.logger` (the "Login route called" line, the exception logged when a token fails to load) are not modelled; the logger helpers return the call they would make. Python's logging raises `KeyError` when an `extra` key collides with a `LogRecord` attribute; that is not modelled.
- `Security.Hash`: an injective stand-in for werkzeug's salted key derivation; one-wayness and the constant-time comparison are not modelled.
- `Security.Loads`: tokens are structured values, not the base64/JSON text itsdangerous produces; an unparsable token is `Malformed`. Following itsdangerous, a timestamp in the future is refused as expired, which is stricter than "age at most 86400".
- `AuthModels.UserStore.LoadUser`: takes the id as an integer; the conversion of the session's string id, which raises on a non-numeric value, is not modelled.
- `AuthModels.UserStore.Insert`: follows SQLite's defaults: `=` on emails is case-sensitive, and neither the column lengths (64 for names, 120 for the email) nor the `role_id` foreign key to `role.id` are enforced. On a server database set through `DATABASE_URL`, a registration before `seed-db` has created role 2 or with an over-long field would also fail, and a case-insensitive collation would change email matching; those outcomes are not modelled.
- `AuthModels.UserStore.Insert`: the database's choice of id is a counter above every existing id; two concurrent registrations racing on one email are not modelled.
- `AuthRoutes.Login`: the remember flag is set to the form's value; Flask-Login's `_fresh` and `_id` session entries and the remember-me cookie are not modelled.
- `AuthRoutes.Logout`: clearing the remember-me cookie is modelled as setting the remember flag to false.
- Form validation: `DataRequired()` strips ASCII whitespace only, where Python's `str.strip()` also removes other Unicode whitespace; the `Email()` validator is a parameter.
- `Logger.LogInfo`: the dictionary text quotes every string with single quotes and escapes nothing, unlike Python's `repr`.
- `Logger.LogInfo`: keyword names are distinct, but a keyword named `message` (or `error` for `log_error`), which Python refuses with a `TypeError`, is not excluded; it would only appear in the context text.
- `Commands.RoleTable.SeedDb`: where a failing transaction raises (the autoflush of a later query inside the loop, or the commit) is not distinguished; in both cases the exception leaves the command and nothing is stored.
- `SECRET_KEY` is always a string here; an unset secret key (which makes the serializer fail outside the `try`) is not modelled.
- `created_at` is not modelled. Its default calls `datetime.now(...)` once, when the module is imported, so all users created by one process would share that timestamp.
- `User.__repr__` and the `clients` relationship are not modelled.
- Flash texts and template names are reduced to the values of `Flash`, `Endpoint` and `Page`; the `click.echo` of `seed-db` is not modelled.
- Email sending, PDF invoices, dashboard queries, the client, project and invoice routes and forms, ORM schemas of other tables and application wiring are outside this model.
- Email verification, lower-casing of emails, logging in after registration and audit records from the routes do not exist in this code and are not modelled.
