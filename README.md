# bank-ai-web3-app, modelled in Dafny

bank-ai-web3-app is a demo banking front end (React) with a Flask back end,
an AI assistant, a small retrieval store and an Ethereum wallet. It has no
central engine. Its logic is a set of small deterministic rules spread over UI
components and route handlers. This project models those rules and proves
what they promise. Each source file becomes one Dafny module:

- **Scoring and aggregation.** The financial-health scorer (`FinancialHealth`)
  has four sub-scores, a weighted and rounded total, an advice list and a
  score band. The client-side spending summariser is `SpendingInsights`. The
  back end's rule-based fraud score and spending totals are `AiAnalytics`.
- **Retrieval.** The paragraph chunker is `DocumentChunks` and
  `DocumentLoader`. The retriever's result shaping, its greedy context packer
  under a length budget, custom-knowledge defaults and seeding rule are
  `Retriever`.
- **The local transaction ledger.** The browser's `localStorage` is modelled
  as `Ledger.BrowserStorage`. `AddNewTransaction` covers the add form and
  prepending a record. `TransactionHistory` covers search, delete-by-id,
  clear-all, amount formatting and totals.
- **Validators.** The register and login pages are `App`. The transfer form is
  `Transfer`, the crypto-transfer guards are `CryptoWallet`, and the e-mail,
  password and account-number predicates and network tables are `Constants`.
  The identity-number shape check lives in `ImageService`.
- **Small stateful services.** The in-memory user registry is `AuthRoutes`.
  The wallet routes' check order and balance bookkeeping are `Web3Routes`.
  The AI provider fallback and keyword responder are `AiChat`.
- **String helpers.** Address shortening and network naming are
  `Web3Service`. Document recognition and analysis from OCR text are
  `ImageService`.
- **Shared helpers.** `Text` holds JavaScript and Python whitespace,
  trimming, ASCII case, `includes`, `split`/`join` and number rendering.
  `Seqs` holds sums, filters and prefixes.

Where the source changes state in place, the model is a class. Its methods
carry `modifies` clauses and are proved against specification functions. This
covers the browser storage, the form and page components, the user registry,
the wallet database, the knowledge store and the AI service. Pure code is
modelled as functions, with lemmas relating them.

Money and scores are exact `real` numbers. The following are parameters of
the model:

- the results of `parseFloat` (`None` standing for NaN);
- LLM replies, OCR text and speech transcription;
- blockchain balances and receipts;
- vector-search hits;
- the clock and `Math.random()`;
- the password hash and the token issuer.

## Model

| member | source | states |
|---|---|---|
| FinancialHealth.ComputeMetrics | bank-ai-web3-app/frontend/src/components/FinancialHealth.js:22-30 | savings rate, debt ratio, emergency months and investment ratio are (income − total expenses)·100, debt·12, emergency fund and investments divided by income, income, total expenses and savings |
| FinancialHealth.SavingsScore | bank-ai-web3-app/frontend/src/components/FinancialHealth.js:34 | the savings sub-score lies in [0,100] and is twice the rate whenever that is already in range |
| FinancialHealth.DebtScore | bank-ai-web3-app/frontend/src/components/FinancialHealth.js:35 | the debt sub-score is never negative, is at most 100 for a non-negative ratio and exceeds 100 for a negative one |
| FinancialHealth.EmergencyScore | bank-ai-web3-app/frontend/src/components/FinancialHealth.js:36 | capped at 100 from above only: negative exactly when the months are negative |
| FinancialHealth.InvestmentScore | bank-ai-web3-app/frontend/src/components/FinancialHealth.js:37 | capped at 100 from above only: negative exactly when the ratio is negative |
| FinancialHealth.RoundHalfUp | bank-ai-web3-app/frontend/src/components/FinancialHealth.js:41 | `Math.round`: the nearest integer, halves rounded up |
| FinancialHealth.CalculateScore | bank-ai-web3-app/frontend/src/components/FinancialHealth.js:26-49 | the metrics are those of the profile; each sub-score is the banded score of its own metric (savings rate, debt ratio, emergency months, investment ratio), within 0..100; the total is within one half of 0.3·s + 0.25·d + 0.2·e + 0.25·i |
| FinancialHealth.TotalInRange | bank-ai-web3-app/frontend/src/components/FinancialHealth.js:41-46 | the weights sum to 1, so the rounded total is in [0,100] whenever all sub-scores are |
| FinancialHealth.DebtScoreAtMost100 | bank-ai-web3-app/frontend/src/components/FinancialHealth.js:28-35 | with debt ≥ 0 and income > 0 the debt sub-score is in [0,100] |
| FinancialHealth.DebtScoreMonotone | bank-ai-web3-app/frontend/src/components/FinancialHealth.js:28-35 | for fixed positive income, more debt never raises the debt sub-score |
| FinancialHealth.EmergencyScoreMonotone | bank-ai-web3-app/frontend/src/components/FinancialHealth.js:29-36 | with positive total expenses, a larger emergency fund never lowers the emergency sub-score |
| FinancialHealth.NonNegativeProfileInRange | bank-ai-web3-app/frontend/src/components/FinancialHealth.js:22-46 | a profile of non-negative amounts with positive denominators has every sub-score and the total in [0,100] |
| FinancialHealth.GetAdvice | bank-ai-web3-app/frontend/src/components/FinancialHealth.js:66-90 | the advice list is never empty; each warning is present iff its strict threshold fires, in savings/debt/emergency/investment order; the "status is good" message appears iff none fired |
| FinancialHealth.SelectedWarnings | bank-ai-web3-app/frontend/src/components/FinancialHealth.js:69-87 | the fired warnings are empty iff no threshold fires, never contain the good-status message, and contain each warning iff its threshold fires |
| FinancialHealth.ScoreColor | bank-ai-web3-app/frontend/src/components/FinancialHealth.js:93-95 | "excellent" iff score ≥ 80, "good" iff 60 ≤ score < 80, "needs-improvement" iff score < 60 |
| FinancialHealth.ScoreCaption | bank-ai-web3-app/frontend/src/components/FinancialHealth.js:164 | the caption under the score agrees band by band with the colour class |
| FinancialHealth.ParseOrZero | bank-ai-web3-app/frontend/src/components/FinancialHealth.js:55 | `parseFloat(v) \|\| 0`: a non-zero number is kept, NaN becomes 0 |
| FinancialHealth.UpdateData | bank-ai-web3-app/frontend/src/components/FinancialHealth.js:54-56 | only the named field changes, to the parsed value or 0; the expenses are untouched |
| FinancialHealth.SetExpense | bank-ai-web3-app/frontend/src/components/FinancialHealth.js:61 | after the update the category holds the new value, every other category keeps its value, existing keys keep their order, and a new category is appended as one extra entry |
| FinancialHealth.UpdateExpense | bank-ai-web3-app/frontend/src/components/FinancialHealth.js:58-63 | only the expenses change; the named category holds the parsed value, or 0 when the input does not parse; every other category keeps its value |
| FinancialHealth.SetExpenseTotal | bank-ai-web3-app/frontend/src/components/FinancialHealth.js:58-63 | replacing one category's value changes the expense sum by exactly new − old |
| FinancialHealth.UpdateExpenseTotal | bank-ai-web3-app/frontend/src/components/FinancialHealth.js:58-63 | editing a category moves total expenses by the parsed value minus the old value |
| FinancialHealth.DefaultTotalExpenses | bank-ai-web3-app/frontend/src/components/FinancialHealth.js:5-22 | the default expenses total 3000 |
| FinancialHealth.DefaultProfileScore | bank-ai-web3-app/frontend/src/components/FinancialHealth.js:5-49 | the default profile scores 80/0/33.3/50 and total 43; only the debt and emergency thresholds fire |
| FinancialHealth.DefaultProfileAdvice | bank-ai-web3-app/frontend/src/components/FinancialHealth.js:66-90 | the default profile's advice is exactly the debt warning then the emergency warning at 5/3 months |
| AddNewTransaction.WithField | bank-ai-web3-app/frontend/src/components/Transactions/AddNewTransaction.js:39 | editing a field changes that form field and no other |
| AddNewTransaction.CollectErrors | bank-ai-web3-app/frontend/src/components/Transactions/AddNewTransaction.js:48-70 | description, amount and category errors appear iff their rule fails, with the source's messages ('Amount is required' for empty, 'must be a positive number' for NaN or ≤ 0); the map is empty iff the form is valid |
| AddNewTransaction.SignedAmount | bank-ai-web3-app/frontend/src/components/Transactions/AddNewTransaction.js:104-106 | the stored amount has the parsed magnitude, ≤ 0 for an expense and ≥ 0 otherwise |
| AddNewTransaction.Endpoints | bank-ai-web3-app/frontend/src/components/Transactions/AddNewTransaction.js:112-113 | income runs External Source → Personal Account, anything else Personal Account → External Payee |
| AddNewTransaction.AddTransactionApi | bank-ai-web3-app/frontend/src/components/Transactions/AddNewTransaction.js:73-87 | success with status 'Success' and the new id; a given date is kept, an empty or missing date becomes today; all other fields are the input's |
| AddNewTransaction.NewRecordShape | bank-ai-web3-app/frontend/src/components/Transactions/AddNewTransaction.js:104-118 | a saved record's sign matches its type, its magnitude is the parsed amount, and its endpoints, description, category, id and status are as built |
| AddNewTransaction.TransactionForm.constructor | bank-ai-web3-app/frontend/src/components/Transactions/AddNewTransaction.js:10-19 | the form starts empty with type 'expense', today's date and no errors |
| AddNewTransaction.TransactionForm.HandleChange | bank-ai-web3-app/frontend/src/components/Transactions/AddNewTransaction.js:37-45 | the field is updated; the field's error entry is cleared only when it was set, and no other entry changes |
| AddNewTransaction.TransactionForm.ValidateForm | bank-ai-web3-app/frontend/src/components/Transactions/AddNewTransaction.js:48-70 | returns true iff the form is valid iff the stored error map is empty; the stored map reports exactly the failing fields with their messages (ReportsErrors) |
| AddNewTransaction.TransactionForm.HandleSubmit | bank-ai-web3-app/frontend/src/components/Transactions/AddNewTransaction.js:90-135 | an invalid form saves nothing; a valid one prepends the new record to the stored list and resets the form; the error map reports exactly the submitted form's failing fields; the token and user keys are untouched |
| AiAnalytics.Last | bank-ai-web3-app/backend/ai_service.py:87-100 | Python's `s[-n:]`: the last min(n, \|s\|) entries, a suffix of the list |
| AiAnalytics.Recipients | bank-ai-web3-app/backend/ai_service.py:100 | a recipient is listed iff it is a non-empty `to_account_number` of some entry |
| AiAnalytics.AlertsOf | bank-ai-web3-app/backend/ai_service.py:84-134 | one alert text per fired rule, in rule order |
| AiAnalytics.TotalAppend | bank-ai-web3-app/backend/ai_service.py:83-134 | points and alerts of two runs of rules concatenate |
| AiAnalytics.FiredOfSums | bank-ai-web3-app/backend/ai_service.py:86-134 | the score and alert list are the sums and concatenation of the six rules' contributions, in source order |
| AiAnalytics.Flag | bank-ai-web3-app/backend/ai_service.py:88-90 | one rule step adds the rule's points and alert exactly when it fires |
| AiAnalytics.ErrorReport | bank-ai-web3-app/backend/ai_service.py:145-151 | an exception gives score 0, not fraudulent, the error alert and 'Review' |
| AiAnalytics.ScoreRules | bank-ai-web3-app/backend/ai_service.py:83-143 | the rule-by-rule loop produces the report of exactly the rules whose conditions hold |
| AiAnalytics.DetectFraud | bank-ai-web3-app/backend/ai_service.py:76-151 | a missing amount (KeyError) or a failing anomaly model (history ≥ 10) gives the error report; otherwise the report of the fired rules |
| AiAnalytics.FiredOfExactly | bank-ai-web3-app/backend/ai_service.py:86-136 | a rule is in the fired list iff its condition holds |
| AiAnalytics.FiredExactly | bank-ai-web3-app/backend/ai_service.py:86-136 | large amount iff mean of the last ≤10 amounts > 0 and amount > 5·mean; odd hour iff hour < 6 or > 22; new recipient iff a given recipient is not among the last 20; anomaly only with ≥ 10 entries; description rules only for a non-empty description, on YES/POSSIBLE |
| AiAnalytics.TotalBounds | bank-ai-web3-app/backend/ai_service.py:83-134 | the point sum is between 0 and 50 per fired rule |
| AiAnalytics.ReportFacts | bank-ai-web3-app/backend/ai_service.py:138-143 | reported score = min(100, sum) in [0,100]; fraudulent implies score > 70 and 'Review transaction'; one alert per rule |
| AiAnalytics.FraudNeedsTwoRules | bank-ai-web3-app/backend/ai_service.py:140 | no single rule (at most 50 points) makes a transaction fraudulent |
| AiAnalytics.ShortHistoryNoAnomaly | bank-ai-web3-app/backend/ai_service.py:106-134 | with fewer than 10 history entries the anomaly rule never fires, and the two description rules never fire together |
| AiAnalytics.Spent | bank-ai-web3-app/backend/ai_service.py:235 | total spent (negated sum of the negative amounts) is never negative |
| AiAnalytics.AnalyzeSpendingPatterns | bank-ai-web3-app/backend/ai_service.py:227-260 | the corrected analysis (see Findings): an empty list gives only the no-data insight; otherwise total spent, total/3 as the monthly average, and one breakdown entry per category holding that category's spending |
| AiAnalytics.AnalyzeSpendingPatternsAsWritten | bank-ai-web3-app/backend/ai_service.py:227-260 | as written: the analysis raises a TypeError exactly when some transaction has a category; otherwise it returns the corrected report, whose breakdown is then empty |
| AiAnalytics.CategorisedHistoryRaises | bank-ai-web3-app/backend/ai_service.py:248 | a single categorised spend of 5 raises as written, while the corrected analysis reports 5 for that category |
| AiAnalytics.FilterSpendsLess | bank-ai-web3-app/backend/ai_service.py:229-240 | spending over a sub-list never exceeds the whole list's |
| AiAnalytics.CategoryWithinTotal | bank-ai-web3-app/backend/ai_service.py:235-240 | each category total lies between 0 and the total spent |
| AiAnalytics.CategorizeTransaction | bank-ai-web3-app/backend/ai_service.py:50-74 | a failed completion gives "other"; otherwise the reply stripped and lower-cased, character by character |
| AiChat.FirstRule | bank-ai-web3-app/backend/routes/ai_service.py:112-114 | the index of the first keyword contained in the text, none iff no keyword occurs |
| AiChat.Reply | bank-ai-web3-app/backend/routes/ai_service.py:111-116 | the first matching keyword's reply, else the default |
| AiChat.ChatDefault | bank-ai-web3-app/backend/routes/ai_service.py:99 | the default reply embeds the user's message |
| AiChat.MockResponse | bank-ai-web3-app/backend/routes/ai_service.py:96-116 | the reply of the first listed keyword that is a case-sensitive substring of the message, else the default reply with the message embedded |
| AiChat.VoiceDefault | bank-ai-web3-app/backend/routes/ai_service.py:177 | the English default reply embeds the transcription |
| AiChat.ChatWithProvider | bank-ai-web3-app/backend/routes/ai_service.py:118-140 | a successful provider call's text, else (no client or a failure) the mock reply |
| AiChat.ImagePrompt | bank-ai-web3-app/backend/routes/ai_service.py:234 | the prompt is the fixed analysis head followed by the user's message unchanged, so different messages give different prompts |
| AiChat.VoiceFallback | bank-ai-web3-app/backend/routes/ai_service.py:192-197 | the loop returns the reply of the first keyword in the lower-cased text, else the default |
| AiChat.AIService.constructor | bank-ai-web3-app/backend/routes/ai_service.py:12-30 | the provider comes from the environment (default mock) and the service is live iff a known provider has a key and its client was created |
| AiChat.AIService.InitAiClient | bank-ai-web3-app/backend/routes/ai_service.py:32-64 | mock mode stays; otherwise mock is turned off only for gemini/openai with a non-empty key and a created client, and only that provider's client is recorded |
| AiChat.AIService.Chat | bank-ai-web3-app/backend/routes/ai_service.py:66-94 | mock mode or an unknown provider gives the mock reply; gemini and openai go to their provider; the text is either the mock reply or that provider's reply |
| AiChat.AIService.LiveChatUsesProvider | bank-ai-web3-app/backend/routes/ai_service.py:79-137 | in live mode a successful provider call is the reply the user sees |
| AiChat.AIService.ChatVoice | bank-ai-web3-app/backend/routes/ai_service.py:142-208 | an empty transcription gives the fixed reply with empty text and no audio; otherwise a provider with a client answers, else the first keyword of the lower-cased text; audio only when asked for |
| AiChat.AIService.ChatImage | bank-ai-web3-app/backend/routes/ai_service.py:220-239 | the constant analysis, and the chat reply to "图像分析：{analysis}。{message}" |
| App.HandleLogin | bank-ai-web3-app/frontend/src/App.js:14-40 | blank (after trim) username or password is refused; only demo/demo123 succeeds and writes the token and user; a failure writes nothing |
| App.HandleLogout | bank-ai-web3-app/frontend/src/App.js:428-443 | removes the token and the user, after which the private route no longer renders |
| App.ValidEmailPassesRegistration | bank-ai-web3-app/frontend/src/App.js:131 | every address `validateEmail` accepts also passes the registration regex `\S+@\S+\.\S+` |
| App.RegistrationAcceptsSpaces | bank-ai-web3-app/frontend/src/App.js:131 | the unanchored registration regex accepts " a@b.c", which `validateEmail` refuses |
| App.UsernameError | bank-ai-web3-app/frontend/src/App.js:123-127 | blank after trim gives the blank error; otherwise an untrimmed length < 3 gives the short error |
| App.EmailError | bank-ai-web3-app/frontend/src/App.js:129-133 | blank gives the blank error; otherwise no `\S+@\S+\.\S+` match gives the format error |
| App.PasswordError | bank-ai-web3-app/frontend/src/App.js:135-139 | empty gives the blank error, length < 6 the short error |
| App.ConfirmError | bank-ai-web3-app/frontend/src/App.js:141-143 | an error iff the confirmation differs from the password |
| App.TermsError | bank-ai-web3-app/frontend/src/App.js:145-147 | an error iff the terms are unchecked |
| App.RegisterValidNoErrors | bank-ai-web3-app/frontend/src/App.js:120-149 | the form is valid iff no field has an error |
| App.ValidateRegisterForm | bank-ai-web3-app/frontend/src/App.js:120-149 | one entry per failing field with that field's message; the map is empty iff the form is valid |
| App.NewUser | bank-ai-web3-app/frontend/src/App.js:183-192 | the new user keeps username, email and phone, joins today and holds a 1000.00 USD checking and a 5000.00 USD savings account |
| App.RegisterPage.constructor | bank-ai-web3-app/frontend/src/App.js:108-118 | an empty form and no errors |
| App.RegisterPage.HandleChange | bank-ai-web3-app/frontend/src/App.js:152-166 | only the edited field changes (the checkbox takes `checked`); its error entry is cleared only when set |
| App.RegisterPage.HandleSubmit | bank-ai-web3-app/frontend/src/App.js:168-205 | registers iff the form is valid: then the new token and user are stored and the errors are kept; otherwise the errors shown are exactly the register form's validation errors, non-empty, and nothing is stored |
| AuthRoutes.View | bank-ai-web3-app/backend/routes/auth_routes.py:70-76 | the public view carries id, username, email, full name and role, and nothing else (no password hash) |
| AuthRoutes.RegisterFullName | bank-ai-web3-app/backend/routes/auth_routes.py:99-126 | the given full name, else "first last" trimmed, else the username; never empty for a non-empty username |
| AuthRoutes.AddKeepsValid | bank-ai-web3-app/backend/routes/auth_routes.py:120-129 | inserting a fresh name with id \|USERS\|+1 keeps the ids equal to 1..\|USERS\| in insertion order |
| AuthRoutes.UserRegistry.constructor | bank-ai-web3-app/backend/routes/auth_routes.py:10-20 | the registry starts with the demo user only, id 1 |
| AuthRoutes.UserRegistry.IdsAreOneToN | bank-ai-web3-app/backend/routes/auth_routes.py:10-20 | ids are distinct and cover exactly 1..\|USERS\|, since register (line 120) is the only insertion and uses the next id |
| AuthRoutes.UserRegistry.Login | bank-ai-web3-app/backend/routes/auth_routes.py:32-77 | a missing body or field gives 400; an unknown name and a wrong password give the same 401 message; success returns the token and the public view |
| AuthRoutes.UserRegistry.LoginAfterRegister | bank-ai-web3-app/backend/routes/auth_routes.py:56-57 | a stored user logging in with the password whose hash register stored (line 124) succeeds |
| AuthRoutes.UserRegistry.Register | bank-ai-web3-app/backend/routes/auth_routes.py:87-140 | no body is a server error; a missing username/user_name, password or email gives 400; a duplicate gives 400; both leave the registry unchanged; success inserts exactly the new record with id \|USERS\|+1 and the password's hash |
| AuthRoutes.UserRegistry.Add | bank-ai-web3-app/backend/routes/auth_routes.py:120-129 | the one insertion into the registry, which keeps its id invariant |
| Constants.EmailPatternFromShape | bank-ai-web3-app/frontend/src/utils/constants.js:137 | a string with no whitespace, one '@' with text on both sides and an inner '.' in the domain matches `^[^\s@]+@[^\s@]+\.[^\s@]+$` |
| Constants.EmailShapeFromPattern | bank-ai-web3-app/frontend/src/utils/constants.js:137 | the converse: every match has that shape |
| Constants.ValidateEmail | bank-ai-web3-app/frontend/src/utils/constants.js:136-139 | true iff the address has that shape |
| Constants.LookAheadWhole | bank-ai-web3-app/frontend/src/utils/constants.js:143 | on a line without terminators, `(?=.*[x])` holds iff some character is in class x |
| Constants.ValidatePassword | bank-ai-web3-app/frontend/src/utils/constants.js:141-145 | true iff length ≥ 8, no line terminators, and a lower-case letter, an upper-case letter and a digit occur |
| Constants.GenerateAccountNumber | bank-ai-web3-app/frontend/src/utils/constants.js:132-134 | for r in [0,1): "DTB" followed by nine digits, the first non-zero, 12 characters in all |
| Constants.NetworkFlags | bank-ai-web3-app/frontend/src/utils/constants.js:63-69 | the five ids, and testnet exactly for 5, 11155111 and 80001 |
| Constants.GasSpeedsIncrease | bank-ai-web3-app/frontend/src/utils/constants.js:71-76 | slow < standard < fast < urgent multipliers, standard = 1 |
| CryptoWallet.FormatAddress | bank-ai-web3-app/frontend/src/components/Web3/CryptoWallet.js:108-111 | an empty address gives ''; otherwise the first 8 characters, "...", the last 6 |
| CryptoWallet.PlanTransfer | bank-ai-web3-app/frontend/src/components/Web3/CryptoWallet.js:58-84 | an empty address or amount is refused first, then a parsed amount ≤ 0; otherwise ETH goes to the ETH transfer and any other currency to the token transfer with that symbol |
| CryptoWallet.UsdTotal | bank-ai-web3-app/frontend/src/components/Web3/CryptoWallet.js:182 | eth_balance × 1800 + token_balance, when both are present |
| CryptoWallet.WalletPage.constructor | bank-ai-web3-app/frontend/src/components/Web3/CryptoWallet.js:7-16 | no wallet, no balance, the empty ETH form and no transactions |
| CryptoWallet.WalletPage.LoadWalletData | bank-ai-web3-app/frontend/src/components/Web3/CryptoWallet.js:22-42 | the wallet and balance change only when a wallet exists; the list becomes the first 10 database transactions; a failed call stops at that point |
| CryptoWallet.WalletPage.HandleTransfer | bank-ai-web3-app/frontend/src/components/Web3/CryptoWallet.js:58-97 | follows the transfer plan; the form resets iff the service reply contains 'initiated'; nothing else changes |
| DocumentChunks.StripAll | bank-ai-web3-app/backend/rag/document_loader.py:57 | each piece stripped of Python whitespace, in order |
| DocumentChunks.NonEmptyClean | bank-ai-web3-app/backend/rag/document_loader.py:53-59 | the stripped, non-blank paragraphs are non-empty, already stripped and hold no "\n\n" |
| DocumentChunks.Paragraphs | bank-ai-web3-app/backend/rag/document_loader.py:53-59 | the paragraphs the chunker keeps are all clean |
| DocumentChunks.SplitGroup | bank-ai-web3-app/backend/rag/document_loader.py:61-66 | splitting a chunk's content on "\n\n" gives back its paragraphs |
| DocumentChunks.StripGroup | bank-ai-web3-app/backend/rag/document_loader.py:61-66 | stripping the accumulated "p1\n\n…pn\n\n" leaves exactly the paragraphs joined by "\n\n" |
| DocumentChunks.PackedSnoc | bank-ai-web3-app/backend/rag/document_loader.py:63-69 | closing a group whose first paragraph did not fit after the previous chunk keeps the packing invariant |
| DocumentChunks.ChunksFlatten | bank-ai-web3-app/backend/rag/document_loader.py:55-75 | the chunks' paragraphs, read in order, are the groups' paragraphs in order |
| DocumentChunks.PackedChunks | bank-ai-web3-app/backend/rag/document_loader.py:55-75 | every chunk is non-empty with metadata {source, knowledge_base}; the chunks' paragraphs are the kept paragraphs; multi-paragraph chunks are shorter than chunk_size; each chunk was closed because the next paragraph did not fit |
| DocumentChunks.PendingAppend | bank-ai-web3-app/backend/rag/document_loader.py:61-62 | appending a paragraph that fits keeps the open-chunk invariant |
| DocumentChunks.PendingRestart | bank-ai-web3-app/backend/rag/document_loader.py:63-69 | a paragraph that does not fit starts a new open chunk |
| DocumentLoader.Emit | bank-ai-web3-app/backend/rag/document_loader.py:64-75 | closes the open chunk as its stripped content when non-empty, and nothing otherwise |
| DocumentLoader.AddParagraph | bank-ai-web3-app/backend/rag/document_loader.py:61-69 | a paragraph that fits is appended with "\n\n"; otherwise the open chunk is closed (if non-empty) and the paragraph starts the next |
| DocumentLoader.AddPiece | bank-ai-web3-app/backend/rag/document_loader.py:56-69 | a blank piece is skipped; any other is added stripped |
| DocumentLoader.PackPieces | bank-ai-web3-app/backend/rag/document_loader.py:55-69 | the loop consumes exactly the stripped non-blank pieces, in order |
| DocumentLoader.ChunkDocument | bank-ai-web3-app/backend/rag/document_loader.py:50-77 | non-empty chunks with the knowledge-base metadata; their paragraphs are the document's non-blank paragraphs in order, none split; no chunks iff no such paragraph; multi-paragraph chunks are shorter than chunk_size; a chunk is closed only when the next paragraph does not fit |
| Retriever.Retrieve | bank-ai-web3-app/backend/rag/retriever.py:62-75 | one record per (document, metadata) pair in search order, with relevance 1 − distance or 1 when the distance is missing |
| Retriever.SortByRelevance | bank-ai-web3-app/backend/rag/retriever.py:82 | a permutation of the results in non-increasing relevance, results of equal relevance keeping their search order (a stable sort) |
| Retriever.Piece | bank-ai-web3-app/backend/rag/retriever.py:89 | the "来源：…\n内容：…\n" piece, never empty |
| Retriever.PackContext | bank-ai-web3-app/backend/rag/retriever.py:85-95 | the selected pieces are the greedy prefix: in order, total length < max_tokens, stopping at the first piece that does not fit |
| Retriever.TotalLengthPrefix | bank-ai-web3-app/backend/rag/retriever.py:91-93 | the running length only grows along the list |
| Retriever.GreedyPrefixNotShorter | bank-ai-web3-app/backend/rag/retriever.py:88-95 | no greedy selection is shorter than another |
| Retriever.GreedyPrefixUnique | bank-ai-web3-app/backend/rag/retriever.py:88-95 | the greedy selection is unique |
| Retriever.GetRelevantContext | bank-ai-web3-app/backend/rag/retriever.py:77-98 | requests 5 results and ranks exactly them with the stable relevance sort, packs the greedy prefix of that ranking and joins it with "\n---\n"; empty iff nothing was selected |
| Retriever.KnowledgeStore.constructor | bank-ai-web3-app/backend/rag/vector_store.py:8-19 | the reopened collection holds the records persisted by earlier runs, one per id |
| Retriever.KnowledgeStore.AddDocuments | bank-ai-web3-app/backend/rag/vector_store.py:21-33 | each document goes under the id `doc_` + its digest, with the given metadata or {source: banking_knowledge}; the ids are returned; a batch repeating an id is refused and changes nothing; otherwise exactly the documents whose id is not yet held are appended, in order, so no id is ever held twice and re-adding stored documents changes nothing |
| Retriever.Fresh | bank-ai-web3-app/backend/rag/vector_store.py:27-31 | the records of a batch the collection takes: exactly those whose id it does not hold, in batch order |
| Retriever.FreshAllHeld | bank-ai-web3-app/backend/rag/vector_store.py:21-31 | a batch whose ids are all held adds nothing, so adding the same documents again leaves the collection unchanged |
| Retriever.FreshOfEmpty | bank-ai-web3-app/backend/rag/retriever.py:14-35 | an empty collection takes the whole batch |
| Retriever.CustomKnowledgeMetadata | bank-ai-web3-app/backend/rag/retriever.py:102-103 | missing or empty metadata becomes {source: 用户添加, type: custom}; other metadata is kept |
| Retriever.AddCustomKnowledge | bank-ai-web3-app/backend/rag/retriever.py:100-108 | afterwards the content's id is held; the one record with the resolved metadata is appended unless that id was already held, in which case nothing changes |
| Retriever.BasicKnowledge | bank-ai-web3-app/backend/rag/retriever.py:37-60 | the five built-in facts |
| Retriever.InitializeKnowledgeBase | bank-ai-web3-app/backend/rag/retriever.py:14-35 | a non-empty (for example persisted) store is left alone; an empty one receives exactly the loaded documents, or the five built-in facts when none were loaded, unless the collection refuses the batch for a repeated id |
| TransactionHistory.SearchResults | bank-ai-web3-app/frontend/src/components/Transactions/TransactionHistory.js:34-51 | a blank term keeps all transactions; otherwise an order-preserving sub-list holding exactly the transactions whose from/to/description/status (lower-cased), amount string or date contain the lower-cased term |
| TransactionHistory.WithoutId | bank-ai-web3-app/frontend/src/components/Transactions/TransactionHistory.js:56 | an order-preserving sub-list that drops every record with the id and keeps every other |
| TransactionHistory.DeleteCount | bank-ai-web3-app/frontend/src/components/Transactions/TransactionHistory.js:56 | exactly the records with that id are removed |
| TransactionHistory.DeleteIdempotent | bank-ai-web3-app/frontend/src/components/Transactions/TransactionHistory.js:56 | deleting the same id twice is deleting it once |
| TransactionHistory.FormatAmount | bank-ai-web3-app/frontend/src/components/Transactions/TransactionHistory.js:75-78 | "+$" iff amount ≥ 0, else "-$", followed by \|amount\| to two places |
| TransactionHistory.AmountClass | bank-ai-web3-app/frontend/src/components/Transactions/TransactionHistory.js:95-97 | income class iff amount ≥ 0 |
| TransactionHistory.FormatMatchesClass | bank-ai-web3-app/frontend/src/components/Transactions/TransactionHistory.js:75-97 | the sign shown and the colour class always agree |
| TransactionHistory.StatusClass | bank-ai-web3-app/frontend/src/components/Transactions/TransactionHistory.js:81-92 | success/pending/failed case-insensitively, anything else (or no status) the default class |
| TransactionHistory.IncomeSumNonNegative | bank-ai-web3-app/frontend/src/components/Transactions/TransactionHistory.js:262-265 | the income sum is never negative |
| TransactionHistory.ExpenseSumNonPositive | bank-ai-web3-app/frontend/src/components/Transactions/TransactionHistory.js:271-274 | the expense sum is never positive |
| TransactionHistory.SignedSplit | bank-ai-web3-app/frontend/src/components/Transactions/TransactionHistory.js:262-274 | income and expense sums add up to the sum of all amounts |
| TransactionHistory.TotalsBalance | bank-ai-web3-app/frontend/src/components/Transactions/TransactionHistory.js:262-274 | both totals are non-negative and income − expenses is the net sum |
| TransactionHistory.ZeroAmountIgnored | bank-ai-web3-app/frontend/src/components/Transactions/TransactionHistory.js:262-274 | a zero amount counts in neither total |
| TransactionHistory.HistoryView.constructor | bank-ai-web3-app/frontend/src/components/Transactions/TransactionHistory.js:9-12 | empty lists and an empty search term |
| TransactionHistory.HistoryView.Load | bank-ai-web3-app/frontend/src/components/Transactions/TransactionHistory.js:15-51 | the list becomes the stored list, and the shown list is the search result of the current term over it (the whole list when the term is blank); the term is unchanged |
| TransactionHistory.HistoryView.Search | bank-ai-web3-app/frontend/src/components/Transactions/TransactionHistory.js:34-51 | the filtered list becomes the search results for the new term |
| TransactionHistory.HistoryView.HandleDelete | bank-ai-web3-app/frontend/src/components/Transactions/TransactionHistory.js:34-62 | on confirmation storage and the list receive the list without that id, and the shown list is the search result of the current term over it; otherwise nothing changes |
| TransactionHistory.HistoryView.HandleClearAll | bank-ai-web3-app/frontend/src/components/Transactions/TransactionHistory.js:65-72 | on confirmation the storage key is removed and both lists emptied |
| SpendingInsights.CategoryName | bank-ai-web3-app/frontend/src/services/aiService.js:111 | a missing or empty category becomes 'uncategorized', so a name is never empty |
| SpendingInsights.AddToSum | bank-ai-web3-app/frontend/src/services/aiService.js:115 | booking an amount into the category map raises the sum of its totals by exactly that amount |
| SpendingInsights.AddToKeys | bank-ai-web3-app/frontend/src/services/aiService.js:115 | booking adds the category name if new and no other |
| SpendingInsights.AddToDistinct | bank-ai-web3-app/frontend/src/services/aiService.js:115 | category names stay distinct, as object keys are |
| SpendingInsights.CategoryTotals | bank-ai-web3-app/frontend/src/services/aiService.js:109-119 | distinct categories whose totals sum to the total spent |
| SpendingInsights.BookStep | bank-ai-web3-app/frontend/src/services/aiService.js:113-118 | one transaction books only a negative amount, raising the category sum by its magnitude |
| SpendingInsights.SpentStep | bank-ai-web3-app/frontend/src/services/aiService.js:113-118 | a negative amount adds its magnitude to spent; any other adds itself to received (zero counts as received) |
| SpendingInsights.TopCategories | bank-ai-web3-app/frontend/src/services/aiService.js:122-124 | at most three entries, in non-increasing amount order |
| SpendingInsights.TopCategoriesFromMap | bank-ai-web3-app/frontend/src/services/aiService.js:122-124 | every top entry comes from the map, and any category left out is no larger than the third shown |
| SpendingInsights.GenerateSpendingInsights | bank-ai-web3-app/frontend/src/services/aiService.js:135-151 | the pushing loop yields the insight sentences joined by spaces, and the empty text when there is no top category |
| SpendingInsights.InsightSentences | bank-ai-web3-app/frontend/src/services/aiService.js:135-151 | none iff no top category; the top-category sentence first, then the "significant portion" sentence iff its share exceeds 0.4 (JavaScript division: a zero total counts any positive amount as significant), then the second-category sentence iff two categories |
| SpendingInsights.Accumulate | bank-ai-web3-app/frontend/src/services/aiService.js:105-119 | the loop computes the category totals, total spent and total received |
| SpendingInsights.AnalyzeTransactionPattern | bank-ai-web3-app/frontend/src/services/aiService.js:100-133 | a missing or empty list gives only the no-data insight; otherwise the totals, the top three categories, spent / 3 as the monthly average, and the insight sentences of those top categories joined by spaces |
| SpendingInsights.CategoryTotalsPositive | bank-ai-web3-app/frontend/src/services/aiService.js:113-115 | every booked category total is positive |
| SpendingInsights.TopWithinSpent | bank-ai-web3-app/frontend/src/services/aiService.js:141 | whenever a top category exists the total spent is positive, so its share is defined |
| SpendingInsights.GenerateQuickResponse | bank-ai-web3-app/frontend/src/services/aiService.js:80-89 | balance, transfer, advice, fraud and help each get their own reply text; any other key gets the default text |
| SpendingInsights.QuickResponsesDistinct | bank-ai-web3-app/frontend/src/services/aiService.js:80-89 | the five known keys get five different texts, none of them the default |
| Transfer.FindAccount | bank-ai-web3-app/frontend/src/components/Transactions/Transfer.js:85-88 | `accounts.find`: none iff no account has the id, otherwise the first with it |
| Transfer.GetAccountBalance | bank-ai-web3-app/frontend/src/components/Transactions/Transfer.js:85-88 | the first matching account's balance, or 0 when there is none |
| Transfer.SetBalance | bank-ai-web3-app/frontend/src/components/Transactions/Transfer.js:71 | only the accounts with that id take the new balance |
| Transfer.GeneratedNumberIsValidRecipient | bank-ai-web3-app/frontend/src/components/Transactions/Transfer.js:156 | every number `generateAccountNumber` makes passes `^[A-Z0-9]{8,20}$` |
| Transfer.RecipientError | bank-ai-web3-app/frontend/src/components/Transactions/Transfer.js:153-159 | no error iff the recipient matches `^[A-Z0-9]{8,20}$`; empty gives the required message |
| Transfer.AmountError | bank-ai-web3-app/frontend/src/components/Transactions/Transfer.js:175-182 | no error iff the amount is given and, when numeric, within [0.01, limit]; the limit is the selected account's balance, or 1000000 |
| Transfer.FormErrors | bank-ai-web3-app/frontend/src/components/Transactions/Transfer.js:153-182 | one entry per failing field; empty iff the form is valid |
| Transfer.ScoreColor | bank-ai-web3-app/frontend/src/components/Transactions/Transfer.js:191 | danger iff score > 70, warning iff 50 < score ≤ 70, success otherwise |
| Transfer.AsWrittenTransferAlwaysRefused | bank-ai-web3-app/frontend/src/components/Transactions/Transfer.js:56-63 | the request as the page builds it never has `toAccountId`, so the transfer service's guard refuses every one |
| Transfer.Request | bank-ai-web3-app/frontend/src/components/Transactions/Transfer.js:56-61 | the request body, with the recipient also under `toAccountId` and 'Transfer' as the default description |
| Transfer.ValidFormPassesServiceGuard | bank-ai-web3-app/frontend/src/services/api.js:102-107 | every valid form with a numeric amount yields a request the service's guard accepts |
| Transfer.TransferPage.constructor | bank-ai-web3-app/frontend/src/components/Transactions/Transfer.js:7-12 | an empty form, no check and no alert |
| Transfer.TransferPage.AmountChanged | bank-ai-web3-app/frontend/src/components/Transactions/Transfer.js:18-45 | a check runs only for amount > 1000 with from, to and amount present; its result is stored, and a score > 50 raises the alert |
| Transfer.FailureMessage | bank-ai-web3-app/frontend/src/components/Transactions/Transfer.js:79 | the message is never empty: a present, non-empty error text is shown as is; a missing or empty one gives "Transfer failed" |
| Transfer.TransferPage.HandleSubmit | bank-ai-web3-app/frontend/src/components/Transactions/Transfer.js:47-83 | with the corrected request (recipient sent as `toAccountId`, see Findings): an invalid form shows its errors; a stored fraudulent check blocks with no call; otherwise an amount that does not parse fails with "Transfer failed", an error reply fails with its error text when that is non-empty, else "Transfer failed", a "Transfer successful" reply completes, updating the source balance and clearing the form and check, and any other reply completes nothing; only completion changes state |
| Transfer.TransferPage.HandleSubmitAsWritten | bank-ai-web3-app/frontend/src/components/Transactions/Transfer.js:47-83 | as written: an invalid form shows its errors, a fraudulent check blocks, and every valid unblocked form fails with "Transfer failed", because the request lacks `toAccountId` |
| Web3Routes.FindActive | bank-ai-web3-app/backend/routes/web3_routes.py:19-22 | `filter_by(user_id, is_active=True).first()`: the first active wallet of the user, none iff there is none |
| Web3Routes.ReceiptStatusText | bank-ai-web3-app/backend/routes/web3_routes.py:155 | 'completed' iff the receipt status is 1 |
| Web3Routes.TokenMessage | bank-ai-web3-app/backend/routes/web3_routes.py:235 | the token reply always says 'initiated', which is what the wallet page tests |
| Web3Routes.EstimateTransfer | bank-ai-web3-app/backend/routes/web3_routes.py:353-378 | ETH cost = 21000 × gas price and token cost = 65000 × gas price; USD = cost × 1800; ETH total = amount + ETH cost, token total = amount |
| Web3Routes.EstimateRoute | bank-ai-web3-app/backend/routes/web3_routes.py:341-381 | a missing body or a falsy amount is refused (400); an amount `float` cannot convert gives 500; otherwise the estimate for the converted amount |
| Web3Routes.WalletDatabase.constructor | bank-ai-web3-app/backend/routes/web3_routes.py:19-22 | the tables as given |
| Web3Routes.WalletDatabase.CreateWallet | bank-ai-web3-app/backend/routes/web3_routes.py:13-60 | an existing active wallet is returned with nothing inserted; a service error inserts nothing; otherwise exactly one active ethereum wallet row is added and becomes the user's active wallet |
| Web3Routes.WalletDatabase.GetWallet | bank-ai-web3-app/backend/routes/web3_routes.py:64-100 | no wallet gives "No wallet found"; stored balances are overwritten only when the balance call reports no error; the view carries no private key |
| Web3Routes.WalletDatabase.TransferEth | bank-ai-web3-app/backend/routes/web3_routes.py:104-173 | checks in order: no JSON body (500), address, falsy amount (400), wallet (404), unconvertible amount (500), amount ≤ 0 (400), live balance (400), service error (500, an empty error text reaching the `except`, also 500); when every check passes and the send succeeds the transfer is initiated, and only then is one transaction recorded and the stored ETH balance lowered by exactly the amount; the reply says 'initiated' |
| Web3Routes.WalletDatabase.TransferToken | bank-ai-web3-app/backend/routes/web3_routes.py:177-240 | the same ordering with the symbol required and no balance check, an empty service error also ending in the `except` (500); initiated exactly when every check passes and the send succeeds; the stored USDT balance drops by the amount only when upper(symbol) = 'USDT' |
| Web3Service.Abbreviate | bank-ai-web3-app/frontend/src/services/web3Service.js:160-163 | '' for an empty address; otherwise JavaScript `substring` clamping: the head, "...", the tail |
| Web3Service.ShortenAddress | bank-ai-web3-app/frontend/src/services/web3Service.js:160-163 | '' for an empty address; otherwise the first 6 characters, '...', the last 4 |
| Web3Service.GetNetworkName | bank-ai-web3-app/frontend/src/services/web3Service.js:215-224 | the five known names, and "Unknown Network (id)" for any other id |
| Web3Service.NetworkNamesAgree | bank-ai-web3-app/frontend/src/services/web3Service.js:215-224 | the names agree with the `NETWORKS` table in constants.js |
| Web3Service.NetworkInfoOf | bank-ai-web3-app/frontend/src/services/web3Service.js:203-208 | isMainnet iff id = 1; isTestnet iff id is 5 or 11155111; never both |
| Web3Service.TestnetFlagsDiffer | bank-ai-web3-app/frontend/src/services/web3Service.js:207 | Mumbai (80001) is a testnet in `NETWORKS` but not flagged by `getNetworkInfo`; Polygon (137) is a mainnet there but not flagged as one |
| Web3Service.Web3Client.constructor | bank-ai-web3-app/frontend/src/services/web3Service.js:5-40 | a Web3 instance is always set: the wallet's when a wallet is present, otherwise the read-only provider's |
| Web3Service.Web3Client.FormatEth | bank-ai-web3-app/frontend/src/services/web3Service.js:145-148 | '0' without a web3 instance, else the provider's conversion to ether |
| Web3Service.Web3Client.FormatGwei | bank-ai-web3-app/frontend/src/services/web3Service.js:150-153 | '0' without a web3 instance, else the conversion to gwei |
| Web3Service.Web3Client.ToWei | bank-ai-web3-app/frontend/src/services/web3Service.js:155-158 | '0' without a web3 instance, else the conversion to wei |
| Web3Service.Web3Client.IsValidAddress | bank-ai-web3-app/frontend/src/services/web3Service.js:165-168 | false without a web3 instance, else the provider's check |
| Web3Service.Web3Client.GetNetworkInfo | bank-ai-web3-app/frontend/src/services/web3Service.js:196-213 | null without a web3 instance or when the id cannot be read; otherwise the info for that id |
| ImageService.TargetSize | bank-ai-web3-app/backend/image_service.py:64-68 | in exact arithmetic, the size asked of `resize` for an oversized image fits within 1600×1600, no side grows, and the longer side lands exactly on 1600 |
| ImageService.PreprocessedSize | bank-ai-web3-app/backend/image_service.py:57-82 | an image within the bound keeps its size; otherwise the result is either the unchanged size (the handler's fallback) or a size within the bound with both sides at least 1 and no side larger than before |
| ImageService.ModerateImageFits | bank-ai-web3-app/backend/image_service.py:64-69 | in exact arithmetic, when neither side is more than 1600 times the other, the pre-processed image is within 1600×1600 |
| ImageService.ElongatedImageUnscaled | bank-ai-web3-app/backend/image_service.py:64-82 | a 3201×1 image is returned unscaled and still exceeds the bound: its short side truncates to 0, `resize` refuses it and the exception handler returns the image |
| ImageService.ExtractText | bank-ai-web3-app/backend/image_service.py:113-158 | no provider or a failing Tesseract gives ""; the result carries no surrounding whitespace; Tesseract's stripped text is kept unless it is shorter than 10 characters and EasyOCR is available and returns something, in which case the longer of the two is kept, Tesseract's on a tie |
| ImageService.Longer | bank-ai-web3-app/backend/image_service.py:149-151 | the result is one of the two texts, at least as long as each, and Tesseract's on a tie |
| ImageService.FirstMentioned | bank-ai-web3-app/backend/image_service.py:175-177 | finds the first keyword contained in the text, with none before it; `None` exactly when no keyword occurs |
| ImageService.FindAllIn | bank-ai-web3-app/backend/image_service.py:235 | every string `findall` returns is the capture of a match of the pattern; the list is empty exactly when the pattern matches nowhere |
| ImageService.FirstFound | bank-ai-web3-app/backend/image_service.py:192-194 | finds a pattern that `re.search` matches; `None` exactly when no pattern matches |
| ImageService.IsFinancialDocument | bank-ai-web3-app/backend/image_service.py:160-196 | an empty text is never financial; otherwise it is financial exactly when some keyword occurs in the lower-cased text or some layout pattern is found in it |
| ImageService.UpperCaseKeywordFound | bank-ai-web3-app/backend/image_service.py:165-177 | "BANK" counts as financial, because keywords are looked up in the lower-cased text |
| ImageService.ClassifyDocument | bank-ai-web3-app/backend/image_service.py:209-220 | the type is that of the first rule (cheque, invoice, receipt, identity card) with a word in the lower-cased text, with no earlier rule matching; unknown exactly when no rule matches |
| ImageService.ConfidenceOfType | bank-ai-web3-app/backend/image_service.py:200-220 | an identity card is reported only when no cheque, invoice or receipt word occurs, and with high confidence; cheque, invoice and receipt exactly get medium; unknown exactly gets low |
| ImageService.AmountCaptureShape | bank-ai-web3-app/backend/image_service.py:223-237 | every capture of an amount pattern, with its commas removed, is digits with at most one decimal point |
| ImageService.AmountsShaped | bank-ai-web3-app/backend/image_service.py:234-239 | every amount collected over the amount patterns is non-empty, comma-free digits with at most one decimal point |
| ImageService.CleanMatches | bank-ai-web3-app/backend/image_service.py:236-239 | the inner loop keeps each match with its commas removed, when something is left, in order; it never yields more amounts than matches |
| ImageService.CollectAmounts | bank-ai-web3-app/backend/image_service.py:223-239 | the amount loop yields the cleaned matches of each pattern in turn, and every amount is well-shaped |
| ImageService.DateCaptureShape | bank-ai-web3-app/backend/image_service.py:242-247 | every capture of a date pattern is 8 to 10 characters, each a digit, `-` or `/` |
| ImageService.DatesShaped | bank-ai-web3-app/backend/image_service.py:249-251 | every date collected over the date patterns has that shape |
| ImageService.CollectDates | bank-ai-web3-app/backend/image_service.py:242-251 | the date loop yields each pattern's matches in turn, and every date has the date shape |
| ImageService.StripLines | bank-ai-web3-app/backend/image_service.py:257 | strips each line, keeping the number and order of lines |
| ImageService.CollectParties | bank-ai-web3-app/backend/image_service.py:254-257 | the party loop yields, in order, the stripped form of exactly the lines containing a party keyword, never more than there are lines |
| ImageService.AnalyzeFinancialDocument | bank-ai-web3-app/backend/image_service.py:198-259 | the analysis gives the classified type and its confidence, well-shaped amounts, well-shaped dates, and stripped party lines, each coming from a line naming a party |
| ImageService.FindIds | bank-ai-web3-app/backend/image_service.py:268-273 | every identity number found is an 18-character window of the text, at or after the start position, matching the date-bearing identity layout; none is found exactly when no window has that layout |
| ImageService.IdCheckOf | bank-ai-web3-app/backend/image_service.py:268-276 | valid exactly when an identity number occurs; the numbers reported are windows of the text with the identity layout; the names are two to four ideographs; the text reported is the first at most 500 characters |
| ImageService.NamesShaped | bank-ai-web3-app/backend/image_service.py:283-287 | every name extracted is two to four ideographs |
| ImageService.ValidateIdCard | bank-ai-web3-app/backend/image_service.py:261-281 | an image that cannot be opened gives an error; otherwise the result is the identity check of the OCR text, valid exactly when an identity number occurs in it |
| ImageService.AnalyzeImage | bank-ai-web3-app/backend/image_service.py:84-111 | an image that cannot be opened gives an error; otherwise the report carries the original size and the OCR text, and an analysis is present exactly when the text is financial, being that text's analysis |

## Left out

- HTTP plumbing: Flask route registration, `jsonify`, JWT decorators, the axios instance and its interceptors, and the React context wiring. Route handlers are modelled as decisions over their inputs and status codes.
- External engines are parameters or omitted, because they are foreign calls. This covers Web3/JSON-RPC, key creation and signing, CoinGecko, OpenAI/Gemini, chromadb's vector search, Tesseract/EasyOCR, Whisper/gTTS/pyttsx3, IsolationForest, pandas/numpy internals, sha256 and jwt.
- Image handling keeps only the image's size and the OCR engines' outputs. PIL decoding, grey-scale conversion and the contrast and sharpness filters are not modelled.
- ImageService.PreprocessedSize does not promise that the result always fits within 1600×1600. An image whose short side truncates to 0 is returned unscaled by the exception handler (ImageService.ElongatedImageUnscaled), and the contract states that case instead.
- Regular expressions are evaluated by a greedy matcher over a list of steps. That matcher agrees with Python's backtracking matcher for the patterns used, because no greedy run is followed by a step its class can begin. `\d` is ASCII digits. `\w` is ASCII letters, digits, `_` and the ideographs U+4E00 to U+9FFF. `\s` is Python's whitespace set. `re.IGNORECASE` is modelled as matching on the ASCII lower-cased text.
- Lower- and upper-casing is ASCII only. No Unicode case folding is modelled.
- Floating point: numbers are exact reals, and NaN and Infinity are not modelled. Divisions that the code would make infinite are excluded by preconditions, such as income, expenses or savings above zero.
- Formatting: `toFixed`, `toLocaleString`, `Intl.NumberFormat`, `Number.toString`, float-to-wei conversion and date formatting are function parameters or omitted.
- The back end's spending analysis raises a TypeError at its `', '.join` over (category, total) pairs whenever a category exists (see Findings). The text of the insight it would build is not modelled; its totals and breakdown are.
- The undefined names in the AI routes and the unused `AIAssistant`/`Web3Manager` imports of the app entry point are not modelled. That code fails as written.
- The markdown-to-HTML conversion and the directory listing of the document loader are not modelled, because they are file-system and library calls. The chunker receives the document text.
- The apology that `chat` returns from its outer exception handler is not modelled. The provider calls catch their own failures and fall back to the keyword reply, so no modelled failure reaches that handler.
- The clock, `Date.now()` identifiers and `Math.random()` are inputs.
- React rendering, effects timing, `setTimeout` delays, toasts, navigation and purely presentational components are not modelled.
- The ORM schema and the configuration module are not modelled. They hold declarations only.
- The transfer form reports the first failing rule in the order required, pattern, max, min. That order follows react-hook-form, whose source is not part of this model.
- The asynchronous request flow is modelled as one step per handler, with the awaited result as a parameter. No concurrency is intended in the source.
- ImageService.TargetSize is stated in exact arithmetic. Python computes the ratio and the products in IEEE doubles before `int` truncates, so a side can land one below the exact value (2156×1000 gives a width of 1599, not 1600).
- ImageService.ModerateImageFits is stated in exact arithmetic. At the exact 1600 : 1 edge (78400×49) the double product can truncate the short side to 0, `resize` then fails and the image stays unscaled.
- App.UsernameError, App.PasswordError, Constants.ValidatePassword, Web3Service.Abbreviate, Web3Service.ShortenAddress and CryptoWallet.FormatAddress count characters as Dafny characters. JavaScript's `length` and `substring` count UTF-16 code units, so a character outside the Basic Multilingual Plane counts twice there.
- SpendingInsights.GenerateQuickResponse covers keys that are not properties of a plain object. A key naming an inherited `Object.prototype` member, such as "constructor", "toString" or "__proto__", returns that member in JavaScript instead of the default text.
- SpendingInsights.CategoryTotals and SpendingInsights.TopCategories model the totals as a list of (category, amount) pairs in first-appearance order. In JavaScript, `categories[category] || 0` on a category named after an inherited `Object.prototype` member ("constructor", "toString") reads that member instead of 0. `Object.entries` also lists integer-like keys first, in ascending numeric order, so ties in the top-three ranking may come out in a different order from the model's first-appearance order.
- AuthRoutes.UserRegistry.Login and AuthRoutes.UserRegistry.Register model the JSON body as string fields. Non-string JSON values (numbers, booleans, lists, objects) are not modelled.
- Retriever.KnowledgeStore.AddDocuments takes the collection's handling of ids from chromadb, whose source is not part of this model: an id already held is skipped, and a batch repeating an id is refused whole. The MD5 digest is a parameter. A metadata list whose length differs from the document list is excluded by a precondition; every caller passes matching lists.
- Retriever.InitializeKnowledgeBase reports a refused seed batch as `false`. In the source that refusal is an exception out of the retriever's constructor.
- Web3Routes.WalletDatabase.TransferEth and TransferToken model the JSON amount as absent, a number or a string, and the address and symbol as strings. Other JSON types (booleans, lists, objects) are not modelled. The text of an exception that the route's `except` returns with 500 is not modelled either. A string `float` turns into NaN or infinity is outside the exact reals, which is the same limit as for all floating point here.
- CryptoWallet.FormatAddress states its shape only for addresses of 8 or more characters. Shorter non-empty addresses follow Web3Service.Abbreviate, whose contract states JavaScript's `substring` clamping.

## Findings

| source | as written | input that shows it | evidently intended | confidence | as-written member | corrected member |
|---|---|---|---|---|---|---|
| bank-ai-web3-app/frontend/src/components/Transactions/Transfer.js:56-63 | the request names the recipient `toAccountNumber`, while `transactionAPI.transfer` (frontend/src/services/api.js:102-105) throws unless `toAccountId` is set | any valid form, e.g. recipient "DTB123456789", amount "10", a selected source account | the recipient is sent as `toAccountId`, so a valid form reaches the server | not executed | Transfer.AsWrittenTransferAlwaysRefused | Transfer.ValidFormPassesServiceGuard |
| bank-ai-web3-app/backend/ai_service.py:248 | `', '.join` is applied to the sorted (category, total) tuples, which raises a TypeError, so the analysis fails whenever a transaction has a category | one transaction with amount -5 and category "Food" | the top categories are joined as text and the report is returned | not executed | AiAnalytics.AnalyzeSpendingPatternsAsWritten | AiAnalytics.AnalyzeSpendingPatterns |
