# Site cost management backend — a verified model

This project models the request-handling core of SiteCostManagementApp-Backend in Dafny. That backend is an Express and Mongoose service. It lets construction-site teams do three things:

- register and log in with short-lived access tokens and rotated refresh tokens;
- manage sites, cost categories and costs;
- attach receipts to costs.

The model covers these parts:

- **Validator chains.** The chains for users, costs, sites and cost categories, and the middleware that turns their errors into a 400 response. Each chain is a function from the request field to its error list; sanitizers rewrite the value before the validators see it.
- **The Cost document.** Its enums, defaults, setters and `required` checks. It also covers the pre-save hook that derives the net, tax and gross amounts, as a class whose `PreSave` method assigns the three amount fields.
- **Controllers.** Auth, user, site, cost-category and cost. They are methods over one `Db` object that holds the users, the refresh-token store, sites, categories and costs. Each handler's `modifies` clause names exactly the collections it writes.
- **Middlewares.** The access/refresh token middleware, as a method that updates the request's `user` field, and `checkRole`.
- **The upload configuration.** The file filter, the size limit, the destination folder and the generated file name.

The library code the backend calls is a `Lib` record of total functions. That covers validator.js's format checks, `normalizeEmail`, `new Date` parsing, bcrypt, `jsonwebtoken`, `path.extname` and ObjectId casting. The model states what the backend does with their answers. The clock, `Math.random` and the ids MongoDB generates are parameters.

Behaviour the proofs bring out:

- **No token passes a role check.** The access-token payload carries only `userId` and `email`. `checkRole` reads `req.user.role`, so every request with an issued token is refused with 403 by `checkRole(...)`, admin routes included (`AdminAccess.AdminRoute`, `AdminAccess.IssuedTokenFailsEveryRoleCheck`).
- **One stored refresh token per user.** `generateTokens` deletes every refresh token of the user before storing the new one. Register, login and refresh all keep at most one stored token per user (`Db.Valid`), and a refresh invalidates the presented token.
- **The update skips the save hook.** `findByIdAndUpdate` does not run the pre-save hook. A patch that changes quantity, unit price or tax rate leaves the stored amounts as they were (`CostModel.StaleAfterQuantityPatch`).
- **A refresh needs no token.** `/token-refresh` has no middleware, and `express.json` lets `refreshToken` be an object. The body `{"refreshToken": {"$ne": null}}` makes `Token.findOne` select the first stored record, so the handler rotates that record's user's tokens and hands the new pair to the caller (`AuthController.RefreshWithoutToken`). The same body sent to `/logout` deletes the first stored record, whoever it belongs to.
- **Logout's not-found branch never runs.** `deleteOne` resolves to a result object, which is always truthy, so `logout` answers 200 even when no stored token matched.
- **Falsy zeros count as missing.** The controllers' own presence checks are JavaScript truthiness tests, so a quantity, unit price or budget of `0` is answered with 400.

## Model

| member | source | states |
|---|---|---|
| Text.TrimStart | src/validators/costValidator.js:8 | the result is a suffix of the input, it does not start with white space, and everything dropped is white space |
| Text.TrimEnd | src/validators/costValidator.js:8 | the result is a prefix of the input, it does not end with white space, and everything dropped is white space |
| Text.TrimIsInfix | src/validators/costValidator.js:8 | `trim()` yields the contiguous piece of the input that starts after its leading white space |
| Text.TrimHasNoOuterSpace | src/validators/costValidator.js:8 | a trimmed value neither starts nor ends with white space |
| Text.TrimIdempotent | src/validators/costValidator.js:8 | trimming an already trimmed value changes nothing |
| Text.TrimFixed | src/model/costModel.js:33 | a value without white space at its ends passes the `trim` setter unchanged |
| Text.ValidatorLength | src/validators/costValidator.js:11 | the length `isLength` measures never exceeds the number of characters |
| Text.ValidatorLengthPlain | src/validators/costValidator.js:11 | without presentation selectors, `isLength` counts every character |
| Text.ToLower | src/validators/userValidator.js:11 | `toLowerCase` restricted to ASCII: keeps the length, leaves no capital ASCII letter, and changes no other character |
| Text.ToLowerFixed | src/model/costModel.js:32 | a value with no capital ASCII letter passes the ASCII `lowercase` setter unchanged |
| Text.Split | src/middlewares/authMiddleware.js:5 | `split(" ")` yields at least one piece and no piece contains a space |
| Text.JoinSplit | src/middlewares/authMiddleware.js:5 | joining the pieces of `split(" ")` with spaces gives back the header |
| Text.SplitNoSpace | src/middlewares/authMiddleware.js:5 | a header without a space splits into itself alone |
| Text.SplitAfterWord | src/middlewares/authMiddleware.js:5 | `"Bearer " + t` with a space-free `t` splits into exactly `["Bearer", t]` |
| Text.Decimal | src/config/multerConfig.js:21 | a number's decimal text is non-empty and all digits |
| Text.DecimalInjective | src/config/multerConfig.js:21 | different numbers have different decimal texts |
| Validation.Step | src/validators/costValidator.js:9-10 | one validator records no error when it passes and exactly one error for its field when it fails |
| Validation.MongoIdParamRule | src/validators/costValidator.js:4-6 | a route id parameter is accepted exactly when it is a Mongo id; otherwise the one error names the parameter |
| Validation.TrimmedLengthRule | src/validators/siteValidator.js:5-19 | an optional absent field passes; otherwise the trimmed value passes exactly when it is non-empty (required variant) and its length is in range; a blank required value fails `notEmpty` first |
| Validation.GuardedRule | src/validators/siteValidator.js:21-34 | an optional absent field passes; otherwise the value passes exactly when it is non-empty (required variant) and the format check holds; a blank required value fails `notEmpty` first |
| ValidateMiddleware.Entries | src/middlewares/validateMiddleware.js:10-13 | one response entry per collected error, in the same order, carrying its field path and message |
| ValidateMiddleware.Validate | src/middlewares/validateMiddleware.js:3-17 | the request continues exactly when there is no error; otherwise a 400 "Error"/"Validation Error" response listing every error in order |
| ValidateMiddleware.EntriesConcat | src/middlewares/validateMiddleware.js:10-13 | the entries of two chains' errors are the first chain's entries followed by the second's |
| UserValidator.PasswordRule | src/validators/userValidator.js:13-24 | the password chain accepts exactly the trimmed passwords of 6 to 20 characters drawn from letters, digits and `@$!%*?&` with at least one lower-case letter, one capital, one digit and one special character |
| UserValidator.PasswordSteps | src/validators/userValidator.js:15-21 | the three validators pass together exactly when length, presence and the pattern all hold |
| UserValidator.NameLengthPlain | src/validators/userValidator.js:30-32 | for a value matching the name pattern, `isLength` counts every character |
| UserValidator.NameRule | src/validators/userValidator.js:26-42 | `firstName`/`lastName` accept exactly the trimmed values of 2 to 30 characters drawn from ASCII letters, the Turkish letters of the class and white space; every error names the field |
| UserValidator.NameSteps | src/validators/userValidator.js:28-32 | the three validators pass exactly when the value is present, of 2 to 30 characters and matching; a blank value fails `notEmpty` first |
| UserValidator.BlankNameFailsNotEmptyFirst | src/validators/userValidator.js:27-29 | an empty or white-space-only name is reported as empty before anything else |
| UserValidator.EmailRule | src/validators/userValidator.js:4-11 | the email chain passes exactly when the trimmed value is an email and its normalized form is non-empty; the sanitized value holds no capital ASCII letter |
| CostModel.TrimOpt | src/model/costModel.js:10-13 | a `trim` setter keeps a field present exactly when it was present |
| CostModel.Build | src/model/costModel.js:5-84 | `Cost.create` succeeds exactly when the schema accepts the input; a created cost has a non-empty trimmed title, a unit and currency from the enums, and the defaults `adet`, quantity 1, `TRY` and tax rate 0 for absent fields |
| CostModel.DefaultUnitCasts | src/model/costModel.js:30-33 | the default unit is in the enum and survives the lowercase and trim setters |
| CostModel.CostDocument.PreSave | src/model/costModel.js:87-92 | net = quantity × unitPrice, tax = net × taxRate / 100, gross = net + tax; the client fields are unchanged |
| CostModel.SaveTwice | src/model/costModel.js:87-92 | saving again recomputes the same amounts: the hook is idempotent |
| CostModel.GrossIsNetPlusRate | src/model/costModel.js:88-90 | gross = quantity × unitPrice × (1 + taxRate / 100) |
| CostModel.DefaultTaxRateMeansNoTax | src/model/costModel.js:40 | with the default tax rate, the tax is 0 and gross equals net |
| CostModel.AmountsOrdered | src/model/costModel.js:88-90 | non-negative quantity, unit price and tax rate give 0 ≤ net ≤ gross and a non-negative tax |
| CostModel.AmountsDependOnPricingOnly | src/model/costModel.js:87-92 | two costs with the same quantity, unit price and tax rate get the same three amounts |
| CostModel.ApplyPatch | src/controller/costController.js:123-127 | a path the patch does not set keeps its value; a patch that sets no amount leaves all three amounts as stored; an empty patch changes nothing |
| CostModel.PatchLeavesAmountsStale | src/controller/costController.js:123-127 | a cost priced at 1 × 10, patched to quantity 2, still stores net amount 10 while quantity × unitPrice is 20 |
| CostModel.StaleAfterQuantityPatch | src/controller/costController.js:123-127 | any patch that changes the quantity of a priced cost with a non-zero unit price, and sets no amount and no unit price, leaves net ≠ quantity × unitPrice |
| CostValidator.ListsHaveNoEmptyWord | src/validators/costValidator.js:24-60 | the unit and currency lists contain no empty word |
| CostValidator.UnitsAreLowerWords | src/validators/costValidator.js:24 | every listed unit is a lower-case ASCII word |
| CostValidator.TitleRule | src/validators/costValidator.js:7-14 | the title passes exactly when its trimmed length is 2 to 100; a blank title gets a `notEmpty` and a length error, in that order |
| CostValidator.DescriptionRule | src/validators/costValidator.js:15-19 | the description passes exactly when it is absent or its trimmed length is at most 500 |
| CostValidator.UnitRule | src/validators/costValidator.js:20-27 | the unit passes exactly when its trimmed value is one of the eight listed units |
| CostValidator.PositiveNumberRule | src/validators/costValidator.js:28-37 | quantity and unit price pass exactly when they parse as a float above 0; an absent value gets a `notEmpty` and an `isFloat` error |
| CostValidator.TaxRateRule | src/validators/costValidator.js:38-42 | the tax rate passes exactly when it parses as a float of at least 0 |
| CostValidator.MoneyTypeRule | src/validators/costValidator.js:43-63 | the currency passes exactly when its trimmed value is one of the twelve listed codes |
| CostValidator.CostCategoryRule | src/validators/costValidator.js:64-68 | the category passes exactly when it is a Mongo id and non-empty |
| CostValidator.SiteIdRule | src/validators/costValidator.js:69-73 | the site id passes exactly when it is non-empty and a Mongo id |
| CostValidator.FileUrlRule | src/validators/costValidator.js:78-81 | the file URL passes exactly when it is absent or a URL |
| CostValidator.OptionalRulesSkipAbsent | src/validators/costValidator.js:83-149 | every update rule accepts an absent field |
| CostValidator.OptionalRulesAgreeWhenPresent | src/validators/costValidator.js:83-149 | on a present field each update rule accepts exactly what its create rule accepts, including those that omit `notEmpty` |
| CostValidator.ListsMatchSchema | src/validators/costValidator.js:24-60 | the validator's unit and currency lists are the schema's enums |
| CostValidator.LowerWordCasts | src/model/costModel.js:32-33 | a lower-case word passes the unit setters unchanged |
| CostValidator.AcceptedUnitPassesSchema | src/model/costModel.js:14-34 | a unit the validator accepts is unchanged by the schema's setters and is in the schema's enum |
| CostValidator.AcceptedMoneyTypePassesSchema | src/model/costModel.js:44-62 | a currency the validator accepts is in the schema's enum |
| Validation.InheritedLookup | src/validators/siteValidator.js:65 | a name the rule table only inherits from `Object.prototype` throws exactly for the three members that reject a boolean argument, gives a non-chain value for the other nine, and `null` for any name not inherited |
| SiteValidator.CreateRule | src/validators/siteValidator.js:3-66 | `createRule` yields a chain exactly for the seven known fields, with the named field and the requested optional flag; a name inherited from `Object.prototype` gives a non-chain value or, for `__proto__`, `__defineGetter__` and `__defineSetter__`, throws; every other name gives `null` |
| SiteValidator.CreateRuleFindsEveryField | src/validators/siteValidator.js:65 | each of the seven fields is found under its own name |
| SiteValidator.EndDateRule | src/validators/siteValidator.js:36-48 | the end date passes exactly when it is present (required variant), ISO 8601, and not on or before a given start date; a wrong order reports the ordering error |
| SiteValidator.AssignedUsersRule | src/validators/siteValidator.js:50-55 | `assignedUsers` passes exactly when it is absent or an array |
| SiteValidator.ElementIdErrors | src/validators/siteValidator.js:57-62 | no error exactly when every element is a Mongo id; at most one error per element, each an id error |
| SiteValidator.AssignedUsersIdsRule | src/validators/siteValidator.js:57-62 | the wildcard rule reports an error per element that is not a Mongo id |
| SiteValidator.Run | src/validators/siteValidator.js:5-62 | every optional rule accepts a body without its field |
| SiteValidator.RequiredRulesRejectEmptyBody | src/validators/siteValidator.js:7-38 | on an empty body each required rule for name, location, budget, startDate and endDate reports `notEmpty` first |
| SiteValidator.ArrayRulesIgnoreOptional | src/validators/siteValidator.js:50-62 | the two `assignedUsers` rules are the same whether requested as optional or not |
| SiteValidator.EndAfterStartAccepted | src/validators/siteValidator.js:42-47 | an ISO end date strictly after the start date passes |
| SiteValidator.EndNotAfterStartRejected | src/validators/siteValidator.js:42-47 | an end date on or before a given start date is rejected |
| CostCategoryValidator.CreateRule | src/validators/costCategoryValidator.js:3-37 | a chain exactly for the four known names, with the requested optional flag; inherited `Object.prototype` names give a non-chain value or throw as in `createRule` of the site validator; `null` for every other name |
| CostCategoryValidator.CreateRuleFindsEveryField | src/validators/costCategoryValidator.js:36 | each of the four fields is found under its own name |
| CostCategoryValidator.DescriptionRule | src/validators/costCategoryValidator.js:13-18 | the description passes exactly when it is optional and absent or its trimmed length is at most 300; an empty description passes |
| CostCategoryValidator.IsGlobalRule | src/validators/costCategoryValidator.js:20-26 | `isGlobal` passes exactly when it is optional and absent or one of `true`, `false`, `1`, `0`; an accepted value becomes true exactly for `true` and `1` |
| CostCategoryValidator.Run | src/validators/costCategoryValidator.js:5-33 | every optional rule accepts a body without its field |
| CostCategoryValidator.CategoryIdRule | src/validators/costCategoryValidator.js:41 | the `id` parameter passes exactly when it is a Mongo id |
| CostCategoryValidator.NotEmptyBodyRule | src/validators/costCategoryValidator.js:44-49 | the body passes exactly when it exists and has at least one key |
| CostCategoryValidator.RequiredRulesOnEmptyBody | src/validators/costCategoryValidator.js:5-33 | on an empty body the required name and siteId rules fail with `notEmpty` first, the required `isGlobal` rule reports exactly one `isBoolean` error, and the required description rule passes |
| MulterConfig.FileFilter | src/config/multerConfig.js:27-45 | a file is accepted exactly when its MIME type is JPEG, PNG, JPG or PDF; otherwise an error is passed |
| MulterConfig.FilterAcceptsImagesAndPdfOnly | src/config/multerConfig.js:29-35 | every accepted type is an `image/` type or `application/pdf` |
| MulterConfig.WithinSizeLimit | src/config/multerConfig.js:49 | a file is within the limit exactly when it has at most 15728640 bytes |
| MulterConfig.DestinationFor | src/config/multerConfig.js:6-17 | without a truthy site id the upload is refused; otherwise it goes to `uploads/costs/<siteId>` |
| MulterConfig.SitesGetSeparateFolders | src/config/multerConfig.js:12 | two different site ids, each a plain folder name (no separator, not `.` or `..`), get different folders |
| MulterConfig.FileName | src/config/multerConfig.js:18-24 | the stored name starts with `cost-` and ends with the original file's extension |
| MulterConfig.FirstDashAfterDigits | src/config/multerConfig.js:21 | in digits followed by a dash, the first dash comes right after the digits |
| MulterConfig.SuffixInjective | src/config/multerConfig.js:21 | different (time, random) pairs give different unique suffixes |
| MulterConfig.FileNamesDiffer | src/config/multerConfig.js:18-24 | two uploads with the same extension but a different time or random number get different file names |
| CheckRole.Check | src/middlewares/checkRole.js:1-17 | 401 exactly without a user; 403 exactly when the user's role is missing or not listed; the request continues exactly when the role is listed |
| CheckRole.MoreRolesAllowMore | src/middlewares/checkRole.js:9 | a user admitted with some roles listed is admitted when more roles are listed |
| CheckRole.EmptyListDeniesAll | src/middlewares/checkRole.js:9-13 | with no role listed, no authenticated user is admitted |
| CheckRole.NoRoleNoAccess | src/middlewares/checkRole.js:8-13 | a user without a role is refused with 403 whatever the list |
| AuthMiddleware.TokenFrom | src/middlewares/authMiddleware.js:4-5 | a truthy cookie is the token; otherwise the header yields a token exactly when its second space-separated piece is non-empty, and a header token contains no space |
| AuthMiddleware.BearerHeaderGivesToken | src/middlewares/authMiddleware.js:5 | without a cookie, `Authorization: Bearer <t>` yields `t` |
| AuthMiddleware.HeaderWithoutSpaceGivesNothing | src/middlewares/authMiddleware.js:5-8 | without a cookie, a header with no space yields no token, so the request is refused |
| AuthMiddleware.VerifyToken | src/middlewares/authMiddleware.js:3-32 | 401 exactly without a token; 403 exactly when verification fails; otherwise the request continues with `user` set to the decoded payload; on refusal `user` is unchanged |
| AuthMiddleware.VerifyAccessToken | src/middlewares/authMiddleware.js:3-17 | the check above with the access cookie and the access secret |
| AuthMiddleware.VerifyRefreshToken | src/middlewares/authMiddleware.js:19-32 | the check above with the refresh cookie and the refresh secret |
| Database.ViewOf | src/controller/userController.js:6 | `select("-password")` keeps every field but the password |
| Database.Find | src/controller/userController.js:24 | `findById`: an id that does not cast throws, a missing id gives nothing, a stored id gives its document |
| Database.TokenCountAppend | src/controller/authController.js:28-35 | the number of a user's records in two stores put together is the sum of the two counts |
| Database.WithoutUser | src/controller/authController.js:28 | `deleteMany({ userId })` removes exactly the user's records and keeps every other user's count |
| Database.Rotated | src/controller/authController.js:28-35 | after rotation the user has exactly one stored token, the new one; other users' records and counts are kept; at most one token per user stays true |
| Database.FirstWithToken | src/controller/authController.js:119-121 | the first stored record the `refreshToken` filter selects, or nothing exactly when it selects none |
| Database.NotNullSelectsFirstRecord | src/controller/authController.js:119-121 | the filter `{ $ne: null }` selects the first stored record, whenever the store is non-empty |
| Database.RemoveAt | src/controller/authController.js:223 | deleting one record lowers its owner's count by one and no one else's |
| AuthController.AccessClaims | src/controller/authController.js:9-16 | the access payload has exactly the keys `userId` and `email` |
| AuthController.RefreshClaims | src/controller/authController.js:19-25 | the refresh payload has exactly the key `userId` |
| AuthController.GenerateTokens | src/controller/authController.js:7-38 | signs both tokens and rotates the user's stored refresh token to the new one |
| AuthController.Register | src/controller/authController.js:41-105 | 400 exactly when a field is missing or the email is taken, with nothing stored; otherwise 201, the user is stored with the hashed password and role `user`, the answer holds no password, and its tokens are rotated; emails stay unique |
| AuthController.Login | src/controller/authController.js:161-212 | 400 on a missing field, 404 on an unknown email, 401 on a wrong password, none touching the store; otherwise 200 with the matching user and a rotated token pair |
| AuthController.PresentedToken | src/controller/authController.js:111 | the cookie wins when truthy, else the truthy body value; nothing exactly when neither is truthy; a presented string is never empty |
| AuthController.StoredRecord | src/controller/authController.js:119-127 | the query throws exactly for a value that does not cast; a found record is stored and selected by the filter; nothing is found exactly when the filter selects no record |
| AuthController.TextSelectsOnlyItsOwnRecord | src/controller/authController.js:119-121 | a presented string finds only a record storing that very string, and nothing exactly when none stores it |
| AuthController.TokenRefresh | src/controller/authController.js:108-158 | 401 with the store untouched when no token is presented, no record is selected, or its user is gone; 500 when the value or the user id does not cast; otherwise 200 and the selected record's user has its tokens rotated |
| AuthController.RefreshWithoutToken | src/controller/authController.js:111-121 | the body `{"refreshToken": {"$ne": null}}` earns 200 and a fresh pair for the user of the first stored record, with no token known |
| AuthController.RefreshReplacesPresentedRecord | src/controller/authController.js:119-151 | after a refresh the user holds exactly one record, and the presented one is gone unless it equals the new one |
| AuthController.Logout | src/controller/authController.js:215-253 | 400 exactly when no token is presented, 500 exactly when it does not cast; otherwise 200 whether or not a record was selected, and the first selected record is deleted |
| AuthController.LogoutForgetsUniqueToken | src/controller/authController.js:223 | if the presented string was stored in one record only (a premise the store invariant does not supply), no record carries it after logout |
| AdminAccess.IssuedPayloadHasNoRole | src/controller/authController.js:9-13 | the payload of every issued access token lacks `role` |
| AdminAccess.DecodedPayloadHasNoRole | src/controller/authController.js:9-17 | a decoded access token, holding the signed claims plus registered ones such as `iat` and `exp`, has no `role` |
| AdminAccess.IssuedTokenFailsEveryRoleCheck | src/middlewares/checkRole.js:8-13 | whatever `jwt.verify` answers for an issued access token, `checkRole` with any roles never calls `next()`, and a decoded payload gets 403 |
| AdminAccess.AdminRoute | src/middlewares/checkRole.js:3-15 | the access middleware followed by `checkRole("admin")`, on a request carrying an issued token, always answers 403, whether `jwt.verify` throws or decodes it |
| UserController.GetAllUsers | src/controller/userController.js:4-17 | 200 with every stored user, none with a password |
| UserController.GetUserById | src/controller/userController.js:18-38 | 400 exactly for a malformed id, 404 exactly for an unknown one, otherwise 200 with that user without its password |
| UserController.UpdateUserRole | src/controller/userController.js:40-63 | 400 for a malformed id, 404 for an unknown one; otherwise only that user's role changes, to the unchecked value sent |
| UserController.RoleUpdateKeepsEmailsDistinct | src/controller/userController.js:51-52 | a role change keeps the set of users and the uniqueness of emails |
| UserController.DeleteUserById | src/controller/userController.js:65-86 | 400 for a malformed id, 404 for an unknown one; otherwise exactly that user is removed and returned |
| UserController.RemovalKeepsEmailsDistinct | src/controller/userController.js:71 | removing a user keeps emails unique |
| SiteController.BuildSite | src/controller/siteController.js:24-31 | `Site.create` succeeds exactly when name and location are non-empty after trimming and both dates parse; the site is owned by the requester and has no assigned users |
| SiteController.CreateSite | src/controller/siteController.js:5-42 | 400 on a missing (falsy) field, 500/404 on a bad or unknown user, 500 on a schema failure, nothing stored on any; otherwise exactly one site is added with 201 |
| SiteController.CreatedSiteIgnoresAssignedUsers | src/controller/siteController.js:24-31 | the `assignedUsers` sent in the body never reach the stored site |
| CostCategoryController.BuildCategory | src/controller/costCategoryController.js:29-35 | creation succeeds exactly for a non-empty trimmed name; the category is global exactly when `isGlobal` was true |
| CostCategoryController.CreateCostCategory | src/controller/costCategoryController.js:6-45 | 400 on missing name or siteId; then the user and then the site are looked up (500/404); 500 on a schema failure; otherwise exactly one category is added with 201 |
| CostCategoryController.MissingFlagIsNotGlobal | src/controller/costCategoryController.js:32 | an absent or false `isGlobal` is stored as false |
| CostController.InputOf | src/controller/costController.js:65-77 | the body's fields reach `Cost.create` with the requester as `createdBy` |
| CostController.CreateCost | src/controller/costController.js:7-89 | 400 on a missing (falsy) field; then site, user and category are looked up in that order (500/404); 500 on a schema failure; nothing stored on any; otherwise the priced cost is stored with 201, with tax 0 and gross = net when no tax rate was sent |
| CostController.GetCostsBySiteId | src/controller/costController.js:91-116 | 500 for a malformed id, 404 for an unknown site; otherwise 200 with exactly the stored costs of that site |
| CostController.UpdateCostById | src/controller/costController.js:118-143 | 500 for a malformed id or a patch the update validators reject, 404 for an unknown cost; otherwise the patch is applied to that cost alone, without re-pricing |
| CostController.DeleteCostById | src/controller/costController.js:145-164 | 500 for a malformed id, 404 for an unknown one; otherwise exactly that cost is removed and returned |

## Left out

- Response bodies beyond the status code and the returned record, the Turkish messages, and the cookies the auth handlers set and clear. A cookie carries the same token the handler returns.
- The user and token schemas. src/model/user.js and src/model/token.js are not part of this model. `User.create`, `user.save` and `Token.create` are taken to succeed, and uniqueness of emails is what `register` checks.
- `Cost.find(...).populate("costCategory", ...)`: the listing returns the stored costs with category ids, unordered (a map).
- Mongoose timestamps (`createdAt`, `updatedAt`) and `__v`.
- ObjectId details: ids are compared as texts, so an id written in another letter case is a different id. `isObjectId` stands for both `mongoose.Types.ObjectId.isValid` and the cast `findById` performs.
- Mongoose casting of the bodies. Cost amounts, quantities and the site budget arrive as JSON numbers. The strings Mongoose would cast into numbers or booleans, including `isGlobal` values that `toBoolean` did not already turn into booleans, are not modelled.
- Floating point. Numbers are `real`, so rounding in the pre-save hook, `NaN` and `Infinity` are not modelled.
- `SiteValidator.AssignedUsersIdsRule`: a non-array `assignedUsers` is treated as having no elements for the wildcard rule, and array elements are texts.
- `Text.ToLower`: only the ASCII capitals `A`-`Z` are lowered. JavaScript's `toLowerCase` also lowers other capitals, such as `É` to `é` and the Kelvin sign U+212A to `k`; the model leaves those unchanged.
- `Text.ToLowerFixed`: its premise only rules out ASCII capitals, so a value such as `É` meets it although the real `lowercase` setter changes it.
- `CostModel.Build`: the `unit` cast lowers ASCII only, so a unit such as U+212A followed by `g` is rejected, where Mongoose lowers it to `kg` and accepts it.
- `UserValidator.EmailRule`: the sanitized value is lower case in the ASCII sense only; non-ASCII capitals that `toLowerCase` would lower are kept.
- `AuthMiddleware.TokenFrom`: cookies and the `Authorization` header are texts. A `j:` cookie that cookie-parser turns into an object makes `jwt.verify` throw, which the middleware answers with 403; that path is not modelled.
- `Database.TokenQuery`: which `$` operators Mongoose accepts on a string path, and how it casts numbers and arrays, are not modelled. A value is an exact string, an operator filter given by the stored strings it admits, or a value that does not cast. The falsy values `null`, `0` and `false` count as an absent value.
- `MulterConfig.SitesGetSeparateFolders`: ids with a path separator, or equal to `.` or `..`, are not covered. Under `path.join`, `a` and `./a` give the same folder, and `../x` leaves `uploads/costs`.
- `MulterConfig.DestinationFor`: `path.join` normalisation, such as a site id containing `..`, and `fs.mkdirSync` are left out. The destination is the list of path segments.
- `MulterConfig.WithinSizeLimit`: multer's enforcement of the limit while streaming is left out; the limit is a predicate on the file size.
- JWT expiry, signatures and bcrypt salt generation sit behind `Lib.sign`, `Lib.verify`, `Lib.hash` and `Lib.compare`. The salt is a parameter of `Register`.
- Database or library failures other than an id that does not cast. Each would answer 500 through the handlers' `catch` blocks.
- Concurrency. Each handler runs atomically; interleavings of `await`s across requests are not modelled.
- Routes, the server set-up, the database connection, Swagger and src/validators/index.js. Which chains guard which route is not modelled; each chain is a function of its own.
