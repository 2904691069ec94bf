# Expert-system core: rule tokenizer, model validators, client session

This project models three parts of a questionnaire-driven expert system and
proves properties about them in Dafny.

- **The derivation-rule tokenizer** (`routes/rules_compiler/Lexer.js`). It
  scans bilingual (Latin/Cyrillic) rule text such as
  `if age>30 then tier=senior` into tokens. Modelled in `lexer.dfy` (module
  `RulesLexer`) and `lexer_properties.dfy` (module `RulesLexerProperties`).
  - Character classes and the `(state, class) → state` table are functions.
  - The synonym tables are constants.
  - The token-kind deduction is a function.
  - `getNextToken` is a method of a `Lexer` class over a `StringStream`
    object (a text plus a cursor). It is proved equal to a specification
    function `NextToken`.
- **The model validators and statistics** (`routes/api/ModelsInteractor.js`).
  Modelled in `models_interactor.dfy` (module `ModelsInteractor`) and
  `models_interactor_properties.dfy` (module `ModelsInteractorProperties`).
  - Each loop of `copyFields`, `validateModel`, `_validateObjectsInModel`
    and `countObjectsStats` is a method with loop invariants.
  - Each method is proved against a specification function. The lemmas
    state the properties of those functions.
- **The client API session** (`routes/api/api_client.js`). Modelled in
  `api_client.dfy` (module `ApiClient`).
  - `req.session` is a `Session` class whose fields the routes update in
    place.
  - The class has `acceptAnswer`, `constructNextQuestion`,
    `executeDerivRules`, the loops of `/init` and the checks of `/answer`.
  - Each method is tied to a function of the old session state. Lemmas
    prove what the source promises about that state.

Shared files:
- `js_values.dfy` (module `JsValues`) models the JavaScript values the
  code handles:
  - objects as ordered key lists, and arrays;
  - property reads and writes, and reads that throw a TypeError on null or
    undefined;
  - conversion to text, loose equality against a text, truthiness;
  - the lodash predicates that are used.
- `wrappers.dfy` holds `Option` and `Completion`. `Completion` is either a
  normal result or a thrown error.

The code and the specification of the system disagree in three places. The
model follows the code:
- The specification says keyword and operator matching is case-insensitive.
  The code matches spellings exactly, so `If` is an identifier. It lowercases
  only to find a character's class.
- The specification describes the number test as a decimal-number pattern.
  The code's pattern is unanchored, so any text containing a digit is a
  NUMBER.
- The specification lists no ALPHANUMERIC state. The code has one, and no
  transition enters it.

Calls into code that is not part of this model become function parameters:
- `compile` stands for `Compiler.compileStringSerialized`.
- `run` stands for applying `Compiler.createFunction(stmt)` to the parameter
  and attribute maps. It returns the new attribute map or a thrown error.
- `rank` stands for `calculateObjects`, given the model, its attribute
  description and the user's attributes. It returns the ranked objects or a
  thrown error, such as the TypeError `attrsSimilarity` raises for an object
  without attributes.
- The model store's reply to `/init` (an error or a model) is a
  `Completion` parameter.

## Model

| member | source | states |
|---|---|---|
| RulesLexer.ClassifiesLoweredCharacter | routes/rules_compiler/Lexer.js:156-168 | Classifying a character directly gives the same class as the source's method: lowercase it, then take the first class in table order whose pattern matches |
| RulesLexer.GetCharClass | routes/rules_compiler/Lexer.js:156-168 | Defines getCharClass: end of input is NullClass; a character gets the first class in table order whose domain holds it, with letters of either case counting as ALPHA; any other character has no class. Its properties are in ClassifiesLoweredCharacter and LowerCaseDomains |
| RulesLexer.LowerCaseDomains | routes/rules_compiler/Lexer.js:160-165 | Lowercasing keeps digits, `.`, operator symbols, `-` and whitespace in their classes, and makes every accepted capital letter (Latin, Cyrillic, Kelvin sign, dotted I) match the ALPHA pattern |
| RulesLexer.TransitionTable | routes/rules_compiler/Lexer.js:170-273 | No transition enters ALPHANUMERIC. End of input ends every live state. The start state ends only at end of input. The table goes to ERROR exactly from ERROR and END, from NUMBER on a letter or `-`, and from ALPHA or ALPHANUMERIC on `-` |
| RulesLexer.NextState | routes/rules_compiler/Lexer.js:170-273 | Defines getNextState as a `(state, class) → state` table. TransitionTable and StartStateRow state its properties |
| RulesLexer.IsNumberIffHasDigit | routes/rules_compiler/Lexer.js:302-304 | The unanchored `-?\d+(\.\d+)?` test succeeds exactly when the text contains an ASCII digit |
| RulesLexer.IsNumber | routes/rules_compiler/Lexer.js:302-304 | Defines the unanchored number test. IsNumberIffHasDigit gives its meaning |
| RulesLexer.FindGroup | routes/rules_compiler/Lexer.js:283-297 | The lookup finds nothing iff no group lists the text; otherwise it returns the kind of the first group that lists it |
| RulesLexer.DeduceTokenType | routes/rules_compiler/Lexer.js:275-300 | EOF iff the text is empty; NUMBER iff it is non-empty and has a digit; IDENTIFIER iff it is non-empty, digit-free and in neither table |
| RulesLexer.ScanFrom | routes/rules_compiler/Lexer.js:116-153 | The scanning loop never moves the cursor back or past the end, and a finished token consumed at least its own characters |
| RulesLexer.NextToken | routes/rules_compiler/Lexer.js:107-154 | One call moves the cursor forward, within the text, by at least the token's length |
| RulesLexer.Lexer.GetNextToken | routes/rules_compiler/Lexer.js:107-154 | The imperative loop returns NextToken's token or error and leaves the stream cursor where NextToken says; it iterates at most once per remaining character plus once for the terminator |
| RulesLexer.Tokenize | routes/rules_compiler/Lexer.js:107-154 | Defines the tokens that successive getNextToken calls produce, up to and including the first EOF, or the first error. TokenizeAtEnd states its end case |
| RulesLexerProperties.StartStateRow | routes/rules_compiler/Lexer.js:172-188 | From NONE, a letter goes to ALPHA, a digit, `.` or `-` to NUMBER, an operator symbol to OPERATION, whitespace stays in NONE, end of input goes to END |
| RulesLexerProperties.ScanFromText | routes/rules_compiler/Lexer.js:116-142 | A finished token's text is exactly the characters read from the cursor up to the terminator, whitespace read in NONE included |
| RulesLexerProperties.ScanFromTerminator | routes/rules_compiler/Lexer.js:140-146 | When the scan ends, the cursor stays on the terminator unless the terminator is whitespace; then exactly that one character is consumed |
| RulesLexerProperties.NextTokenText | routes/rules_compiler/Lexer.js:116-146 | For one getNextToken call, the token text equals the text between the old cursor and the terminator |
| RulesLexerProperties.NextTokenCursor | routes/rules_compiler/Lexer.js:143-146 | For one getNextToken call, the new cursor is just past a whitespace terminator, otherwise on the terminator |
| RulesLexerProperties.ScanFromFailsAt | routes/rules_compiler/Lexer.js:119-138 | A scan fails only at a real character that it does not consume. The failure is "unknown character" iff that character has no class; otherwise the character is a letter or `-` |
| RulesLexerProperties.ScanFromUnrecognizedToken | routes/rules_compiler/Lexer.js:135-137 | An "Unrecognized token" error carries the text read so far |
| RulesLexerProperties.ScanFromUnknownCharacter | routes/rules_compiler/Lexer.js:119-122 | An "Unknown character" error names the character under the cursor |
| RulesLexerProperties.NextTokenFailure | routes/rules_compiler/Lexer.js:119-138 | A failed getNextToken call stops at a character it leaves in the stream. The error is either "unknown character" naming that classless character, or "unrecognized token" carrying the text from the old cursor, when the character is a letter or `-` |
| RulesLexerProperties.EofExactlyAtEnd | routes/rules_compiler/Lexer.js:107-158 | A call yields EOF iff the cursor is at the end of the text. There it returns an empty EOF token and leaves the cursor unchanged, so further calls keep returning EOF |
| RulesLexerProperties.TokenizeAtEnd | routes/rules_compiler/Lexer.js:107-158 | Tokenizing from the end of the text yields the EOF token alone |
| RulesLexerProperties.AdjacentTokens | routes/rules_compiler/Lexer.js:140-152 | Adjacent tokens need no space: on `age>30`, successive calls yield `age` (IDENTIFIER), `>` (MORE), `30` (NUMBER) and EOF, each call leaving its terminator for the next one |
| RulesLexerProperties.FindGroupFirst | routes/rules_compiler/Lexer.js:283-297 | The table lookup returns the kind of the first group that lists the text |
| RulesLexerProperties.OperatorListingWins | routes/rules_compiler/Lexer.js:279-289 | A digit-free operator spelling gets the kind of the first operator group that lists it |
| RulesLexerProperties.KeyWordListingWins | routes/rules_compiler/Lexer.js:279-297 | A digit-free keyword spelling that no operator group lists gets the kind of the first keyword group that lists it |
| RulesLexerProperties.OperationGroup0Classified | routes/rules_compiler/Lexer.js:69-72 | Every EQUAL spelling is classified EQUAL |
| RulesLexerProperties.OperationGroup1Classified | routes/rules_compiler/Lexer.js:73-76 | Every LESS spelling is classified LESS |
| RulesLexerProperties.OperationGroup2Classified | routes/rules_compiler/Lexer.js:77-80 | Every MORE spelling is classified MORE |
| RulesLexerProperties.OperationGroup3Classified | routes/rules_compiler/Lexer.js:81-84 | Every NOT_EQUAL spelling is classified NOT_EQUAL |
| RulesLexerProperties.OperationGroup4Classified | routes/rules_compiler/Lexer.js:85-88 | Every ASSIGN spelling is classified ASSIGN |
| RulesLexerProperties.KeyWordGroup0Classified | routes/rules_compiler/Lexer.js:32-35 | Every IF spelling is classified IF |
| RulesLexerProperties.KeyWordGroup1Classified | routes/rules_compiler/Lexer.js:36-39 | Every THEN spelling is classified THEN |
| RulesLexerProperties.KeyWordGroup2Classified | routes/rules_compiler/Lexer.js:40-43 | Every AND spelling is classified AND |
| RulesLexerProperties.SpellingsClassified | routes/rules_compiler/Lexer.js:275-300 | Every spelling in either table is classified as its own group's kind: no spelling has a digit, none is listed twice, and no keyword is also an operator |
| RulesLexerProperties.SpellingsStartInAlphabet | routes/rules_compiler/Lexer.js:31-89 | Every listed spelling starts with a lower-case letter, `_` or an operator symbol |
| RulesLexerProperties.UnlistedLeadingCharacter | routes/rules_compiler/Lexer.js:275-300 | A text that starts with any other character is NUMBER if it has a digit and IDENTIFIER otherwise |
| RulesLexerProperties.CapitalisedNeverListed | routes/rules_compiler/Lexer.js:156-168 | A capital letter scans as ALPHA, yet a text that starts with one (`If`, `Если`) is never a keyword or operator: matching is case-sensitive |
| RulesLexerProperties.UnlistedSymbols | routes/rules_compiler/Lexer.js:299-304 | `>=` is not in the tables and so is an IDENTIFIER; a lone `-` holds no digit and is an IDENTIFIER too |
| RulesLexerProperties.GreaterEqualNotOperator | routes/rules_compiler/Lexer.js:68-89 | No operator group lists `>=` |
| RulesLexerProperties.GreaterEqualNotKeyWord | routes/rules_compiler/Lexer.js:31-44 | No keyword group lists `>=` |
| RulesLexerProperties.SpaceLedToken | routes/rules_compiler/Lexer.js:140-146 | A token that starts on a whitespace character keeps that character as its first one, so it is a NUMBER or an IDENTIFIER, never a keyword or operator |
| RulesLexerProperties.SpaceSkipsNothing | routes/rules_compiler/Lexer.js:184-185 | In NONE, a whitespace character is appended to the token and scanning continues in NONE |
| RulesLexerProperties.SpaceOutsideTables | routes/rules_compiler/Lexer.js:46-65 | Whitespace is outside the ALPHA and OPERATION classes |
| ModelsInteractor.LookupPutAll | routes/api/ModelsInteractor.js:13 | Writing `o[f]` changes what `f` reads and no other key |
| ModelsInteractor.CopiedLookup | routes/api/ModelsInteractor.js:10-16 | After copying, a listed field with a truthy source value reads as that value; every other key reads as in the target |
| ModelsInteractor.CopyFields | routes/api/ModelsInteractor.js:10-16 | The copying loop produces the object Copied describes |
| ModelsInteractor.ParameterOfLookup | routes/api/ModelsInteractor.js:84-85 | A rebuilt parameter holds the question's truthy `param`, `type` and `values`, and nothing else |
| ModelsInteractor.ParametersOfNext | routes/api/ModelsInteractor.js:84-86 | Accepting one more question appends exactly its parameter to the rebuilt list |
| ModelsInteractor.ParametersOfElements | routes/api/ModelsInteractor.js:83-86 | There is one rebuilt parameter per question, at that question's position |
| ModelsInteractor.CheckAttrOrParam | routes/api/ModelsInteractor.js:18-32 | Accepts exactly the objects with a string `param` or `name`, a string `type`, and either type `number` or type `choice` with an array of at least two values. A rejection carries the first failed check's message |
| ModelsInteractor.SingleChoiceRefused | routes/api/ModelsInteractor.js:22-25 | A choice with exactly one value is refused with the "non-empty array" message |
| ModelsInteractor.CheckQuestion | routes/api/ModelsInteractor.js:74-81 | Defines the question check: an object with a string `text`, then the attribute-or-parameter check. ModelAcceptedIff states its meaning inside validateModel |
| ModelsInteractor.CheckRule | routes/api/ModelsInteractor.js:94-99 | Defines the rule check: a rule passes iff it is a string. ModelAcceptedIff states its meaning inside validateModel |
| ModelsInteractor.FirstRefused | routes/api/ModelsInteractor.js:60-63 | An early-stopping scan stops at the first entry its check refuses; it finds none iff every entry passes |
| ModelsInteractor.PreludeVerdict | routes/api/ModelsInteractor.js:35-59 | The checks before the scans only ever reject |
| ModelsInteractor.ScanUntilRefused | routes/api/ModelsInteractor.js:60-63 | The attribute (and rule) loop leaves `res` as the first refusal's verdict, or as passed |
| ModelsInteractor.ScanQuestions | routes/api/ModelsInteractor.js:73-90 | The question loop stops with the first invalid question's verdict. With reconstruction on, it pushes one parameter per accepted question, in order |
| ModelsInteractor.ScanAndRebuild | routes/api/ModelsInteractor.js:73-90 | For any check, the same scan result and pushed parameters as ScanQuestions |
| ModelsInteractor.AppendParameter | routes/api/ModelsInteractor.js:84-86 | Copying a question's fields and pushing the copy extends the rebuilt list by that question's parameter |
| ModelsInteractor.ValidateModel | routes/api/ModelsInteractor.js:34-110 | The verdict is ModelVerdict's, and the model afterwards is ModelAfterValidation's |
| ModelsInteractor.ValidatePrelude | routes/api/ModelsInteractor.js:35-59 | Makes the empty-model, `_id`, base-node and attribute-count checks in the source's order |
| ModelsInteractor.ModelVerdict | routes/api/ModelsInteractor.js:34-110 | Defines validateModel's verdict: the early checks, then the attribute, question and rule scans in order. ModelAcceptedIff, ModelRejectionMessage, SameReadsSameVerdict and ObjectsIgnored state its properties |
| ModelsInteractor.ModelAfterValidation | routes/api/ModelsInteractor.js:69-90 | Defines the model validateModel leaves: `parameters` replaced by the rebuilt parameters when reconstruction is on and the attribute scan passed. ParametersRebuilt and RevalidationAgrees state its properties |
| ModelsInteractor.CheckObjectAttributes | routes/api/ModelsInteractor.js:130-136 | An object's attributes pass iff each names a model attribute and holds a value that fits it. An unknown name throws a TypeError |
| ModelsInteractor.CheckObjectStructure | routes/api/ModelsInteractor.js:125-128 | The structure test throws only a TypeError |
| ModelsInteractor.CheckObjects | routes/api/ModelsInteractor.js:124-139 | The objects pass iff every object passes both tests. A refusal carries one of the two object messages, and a throw is a TypeError |
| ModelsInteractor.ObjectsVerdict | routes/api/ModelsInteractor.js:112-142 | Defines _validateObjectsInModel's result: index the attributes by name, then check the objects. ObjectsAcceptedIff and UnknownAttributeThrows state its properties |
| ModelsInteractor.ObjectsVerdictWithoutObjects | routes/api/ModelsInteractor.js:103-105 | Called without objects, as validateModel calls it, the object check passes once the attributes passed |
| ModelsInteractor.ScanObjectAttributes | routes/api/ModelsInteractor.js:130-136 | The inner loop's result is CheckObjectAttributes's |
| ModelsInteractor.ScanObjects | routes/api/ModelsInteractor.js:124-139 | The objects loop's result is CheckObjects's |
| ModelsInteractor.ValidateObjectsInModel | routes/api/ModelsInteractor.js:112-142 | The result is ObjectsVerdict's |
| ModelsInteractor.FindAttribute | routes/api/ModelsInteractor.js:166-168 | A found attribute is one of the model's attributes whose name is loosely equal to the key (`5 == "5"` included); a throw is a TypeError |
| ModelsInteractor.FindAttributeFirst | routes/api/ModelsInteractor.js:166-168 | `_.find` returns the FIRST attribute named by the key. It finds nothing iff every attribute is readable and none is so named. It throws iff a null or undefined attribute comes before any so named |
| ModelsInteractor.Observe | routes/api/ModelsInteractor.js:170-184 | One observation adds the attribute's entry and leaves every other entry alone |
| ModelsInteractor.EntryObservations | routes/api/ModelsInteractor.js:165-186 | Defines the observations one object contributes: its entries whose attribute is number-typed, in `_.forOwn` order; an entry naming no attribute throws. EntryObservationsNumberTyped states that exactly the number-typed entries are observed |
| ModelsInteractor.ObjectObservations | routes/api/ModelsInteractor.js:164-187 | Defines the observations of all objects, object after object. ObjectObservationsNumberTyped states that exactly the number-typed entries of the objects are observed |
| ModelsInteractor.FoldObserveAppend | routes/api/ModelsInteractor.js:164-187 | Counting two runs of observations in turn equals counting their concatenation |
| ModelsInteractor.FindAttributeIn | routes/api/ModelsInteractor.js:166-168 | The `_.find` loop returns FindAttribute's result |
| ModelsInteractor.ObserveEntries | routes/api/ModelsInteractor.js:165-186 | The `_.forOwn` loop updates the statistics with one object's number-typed entries, or throws |
| ModelsInteractor.ContinuedObjects | routes/api/ModelsInteractor.js:164-187 | Counting from an object on equals counting that object's entries, then the remaining objects |
| ModelsInteractor.ObserveObjects | routes/api/ModelsInteractor.js:164-187 | The objects loop yields the statistics of all observations from an empty dictionary |
| ModelsInteractor.CountObjectsStats | routes/api/ModelsInteractor.js:160-190 | The statistics stored in `model.stats` are ObjectsStats's, or the TypeError it throws |
| ModelsInteractor.ObjectsStats | routes/api/ModelsInteractor.js:160-190 | Defines the statistics countObjectsStats stores: every observation folded into an empty dictionary. StatsOfKeys, StatsOfMax, StatsOfMin, StatsOnlyForNumberAttributes, ObjectsStatsBound and ObjectsStatsAttained state its properties |
| ModelsInteractorProperties.FirstRefusedNone | routes/api/ModelsInteractor.js:60-63 | A scan passes iff every entry satisfies the predicate its check decides |
| ModelsInteractorProperties.ModelAcceptedIff | routes/api/ModelsInteractor.js:34-110 | validateModel accepts iff the model is non-empty, has a string `_id` when asked, a string name, array attributes, questions and rules, at least one attribute, valid attributes and questions, and string rules. Acceptance is `[true, ""]` |
| ModelsInteractorProperties.ModelRejectionMessage | routes/api/ModelsInteractor.js:34-110 | A rejection carries one of the source's nine messages |
| ModelsInteractorProperties.SameReadsSameVerdict | routes/api/ModelsInteractor.js:34-101 | Two models that agree on emptiness and on the keys validateModel reads get the same verdict |
| ModelsInteractorProperties.UnreadKeyIgnored | routes/api/ModelsInteractor.js:34-101 | Storing any value under a key validateModel does not read leaves the verdict of a non-empty model unchanged |
| ModelsInteractorProperties.ObjectsIgnored | routes/api/ModelsInteractor.js:103-105 | validateModel never fails because of `objects`. Whatever `objects` holds, acceptance is unchanged, and a non-empty model gets the same verdict |
| ModelsInteractorProperties.ParametersRebuilt | routes/api/ModelsInteractor.js:69-90 | With reconstruction on and the attributes passed, `parameters` holds exactly one rebuilt parameter per accepted question, in order, and no other key changes. With reconstruction off, the model is unchanged |
| ModelsInteractorProperties.RevalidationAgrees | routes/api/ModelsInteractor.js:69-90 | Validating the updated model again gives the same verdict |
| ModelsInteractorProperties.ObjectsAcceptedIff | routes/api/ModelsInteractor.js:124-139 | Once attributes are indexed, the object check passes iff every object has a string name and an attributes object with one key per model attribute, each value fitting its attribute |
| ModelsInteractorProperties.UnknownAttributeThrows | routes/api/ModelsInteractor.js:130-136 | An object's attribute check throws a TypeError iff an entry naming no model attribute comes before any entry whose value does not fit |
| ModelsInteractorProperties.FindAgreesWithIndex | routes/api/ModelsInteractor.js:115-118 | When every attribute is readable and named by a string, number, array or object, `_.find` by name (line 166) and the index by name agree on which keys name an attribute |
| ModelsInteractorProperties.EntryObservationsNumberTyped | routes/api/ModelsInteractor.js:165-170 | In one object, an entry is observed iff its attribute is number-typed |
| ModelsInteractorProperties.ObjectObservationsNumberTyped | routes/api/ModelsInteractor.js:164-170 | Over all objects, an entry is observed iff it is some object's entry and its attribute is number-typed |
| ModelsInteractorProperties.FoldObserveSnoc | routes/api/ModelsInteractor.js:164-187 | Counting one more observation equals observing it after the count |
| ModelsInteractorProperties.StatsOfKeys | routes/api/ModelsInteractor.js:171-176 | The statistics have an entry for exactly the attributes observed |
| ModelsInteractorProperties.StatsOfMax | routes/api/ModelsInteractor.js:172-180 | `max` is at least 0 and at least every observed number, and it is either 0 or one of them |
| ModelsInteractorProperties.StatsOfMin | routes/api/ModelsInteractor.js:172-184 | `min` stays Infinity iff no number was observed; otherwise it is the least observed number |
| ModelsInteractorProperties.ObservedNumbersBounded | routes/api/ModelsInteractor.js:172-184 | Every observed attribute has an entry, and every observed number lies between its `min` and `max` |
| ModelsInteractorProperties.ObjectsStatsBound | routes/api/ModelsInteractor.js:164-184 | Every number-typed attribute an object holds has an entry, and every number any object holds for it lies between its `min` and `max` |
| ModelsInteractorProperties.ObjectsStatsAttained | routes/api/ModelsInteractor.js:164-184 | `max` is 0 or a number some object holds; `min` stays Infinity iff no object holds a number for the attribute, and is otherwise a number some object holds |
| ModelsInteractorProperties.StatsOnlyForNumberAttributes | routes/api/ModelsInteractor.js:160-190 | countObjectsStats creates entries only for attributes the model declares with type number |
| JsValues.IndexByThrows | routes/api/ModelsInteractor.js:115-118 | Indexing elements by a field throws a TypeError exactly when some element is null or undefined |
| JsValues.IndexByKeys | routes/api/api_client.js:164-174 | The keys of the index are exactly the text forms of the elements' field values |
| JsValues.IndexByLastWins | routes/api/api_client.js:164-174 | Each key holds the last element whose field has that text |
| JsValues.IndexElements | routes/api/ModelsInteractor.js:115-118 | The indexing loop, which `/init` also runs (api_client.js lines 164-174), builds IndexBy's map or throws where it does |
| JsValues.LooselyEqualsText | routes/api/ModelsInteractor.js:166-167 | A string, number, array or object is loosely equal to a text iff that text is its own property-key text |
| ApiClient.AnswerMessage | routes/api/api_client.js:15-38 | Each refusal of `/answer` carries its own message, and no two refusals share one |
| ApiClient.InitMessage | routes/api/api_client.js:20-43 | Each refusal of `/init` carries its own message, and no two refusals share one |
| ApiClient.NullMapFacts | routes/api/api_client.js:189-195 | The user map has a key for the field text of every element and no other, and each key holds null |
| ApiClient.CompiledRulesInOrder | routes/api/api_client.js:197-201 | There is one compiled statement per rule, at that rule's position |
| ApiClient.BuiltQuestionFields | routes/api/api_client.js:59-64 | The built question reads back the text, param, type and values it was built from |
| ApiClient.NextQuestionThrows | routes/api/api_client.js:48-68 | Building the next question throws exactly when there is no first question, or when its parameter is missing |
| ApiClient.NextQuestionIsFirst | routes/api/api_client.js:48-68 | The question built is always `questions[0]`: its text, with the param, type and values of the parameter its `param_id` names |
| ApiClient.NextQuestion | routes/api/api_client.js:48-68 | Defines constructNextQuestion's result: `questions[0]` joined with the parameter its `param_id` names, or the TypeError on the way. NextQuestionThrows and NextQuestionIsFirst state its properties |
| ApiClient.AnswerWritesOneKnownKey | routes/api/api_client.js:131-143 | acceptAnswer never adds a key. An accepted answer replaces exactly the question's parameter, and a refused one changes nothing |
| ApiClient.ChoiceAcceptedIff | routes/api/api_client.js:135-136 | For a choice question on a known parameter, an answer is accepted iff it is one of the values |
| ApiClient.NumberAcceptedIff | routes/api/api_client.js:135-137 | For a number question on a known parameter, an answer is accepted iff it is a number |
| ApiClient.OtherQuestionsRefuse | routes/api/api_client.js:135-142 | A question of any other type, or on a parameter missing from the user map, accepts nothing |
| ApiClient.ChoiceWithoutValuesRefuses | routes/api/api_client.js:136 | A choice question whose values are not a list, object or text accepts nothing |
| ApiClient.AcceptOutcome | routes/api/api_client.js:131-143 | Defines acceptAnswer's decision: a missing current question throws; otherwise the answer is accepted iff it fits. ChoiceAcceptedIff, NumberAcceptedIff and OtherQuestionsRefuse state its properties |
| ApiClient.ParamsAfterAnswer | routes/api/api_client.js:138 | Defines the parameter map after acceptAnswer: only an accepted answer is written. AnswerWritesOneKnownKey states its properties |
| ApiClient.RunAllAppend | routes/api/api_client.js:75-78 | Running two lists of statements in turn equals running their concatenation; a throw in the first list means the second never runs |
| ApiClient.RunAll | routes/api/api_client.js:71-79 | Defines the rules run: every statement once in stored order, a throwing statement ending the run with the earlier writes kept. RunAllAppend, LaterRuleWins and RunAllKeepsNames state its properties |
| ApiClient.LaterRuleWins | routes/api/api_client.js:75-78 | When the earlier statements finish, whatever the last statement writes to an attribute is what the attribute ends with |
| ApiClient.RunAllKeepsNames | routes/api/api_client.js:71-79 | Statements that keep the attribute names keep them through the whole run, even when one throws |
| ApiClient.FalsyAnswerRefused | routes/api/api_client.js:222-226 | A falsy answer is refused as "no answer" before validation, and the session is unchanged |
| ApiClient.ZeroAnswerNeverValidated | routes/api/api_client.js:222-226 | `0` would fit a number question, yet `/answer` refuses it as "no answer" |
| ApiClient.AnsweredStoresAnswer | routes/api/api_client.js:214-241 | An answered request had a truthy, fitting answer. The session stores it under the question's parameter and nowhere else, its attributes are the rules' finished result on the new parameters, it holds the ranked objects, and nothing else changes; the reply shows that state |
| ApiClient.AnswerRefusalKeepsSession | routes/api/api_client.js:214-241 | No model, no answer or an answer that does not fit leaves the session unchanged; the "not valid" refusal happens iff acceptAnswer refuses a truthy answer |
| ApiClient.AnswerCrashAfterWrite | routes/api/api_client.js:227-230 | A crash before the write (no current question) leaves the session unchanged. A crash after it, from a rule or from the ranking, leaves the answer stored, the rules' writes in place and the objects as they were |
| ApiClient.AfterAnswer | routes/api/api_client.js:214-241 | Defines `/answer`: refusals, then the write, the rules and the ranking, each of which may crash. AnsweredStoresAnswer, AnswerRefusalKeepsSession, AnswerCrashAfterWrite and FalsyAnswerRefused state its properties |
| ApiClient.InitLoadsSession | routes/api/api_client.js:146-205 | After a started `/init`, the session holds the model. Every attribute name and parameter `param` maps to null. The rules are compiled in order, there are no objects, and the first question is current |
| ApiClient.InitRefusalKeepsSession | routes/api/api_client.js:146-210 | A missing id, a store error or a missing model leaves the session exactly as it was. The id refusal happens iff the id is falsy |
| ApiClient.AfterInit | routes/api/api_client.js:146-212 | Defines `/init`: the id, store-error and not-found refusals, then loading. InitLoadsSession and InitRefusalKeepsSession state its properties |
| ApiClient.Loaded | routes/api/api_client.js:161-174 | Defines loading a found model: the model, then its attribute index, then its parameter index, stopping at a TypeError |
| ApiClient.Reset | routes/api/api_client.js:184-205 | Defines the last part of `/init`: the cleared user maps and rules, then the first question |
| ApiClient.Cleared | routes/api/api_client.js:184-201 | Defines the cleared session: null user maps, the compiled rules and no objects. NullMapFacts and CompiledRulesInOrder state its properties |
| ApiClient.Session.ConstructNextQuestion | routes/api/api_client.js:48-68 | Returns NextQuestion's result and makes it current; a throw leaves the current question alone |
| ApiClient.Session.AcceptAnswer | routes/api/api_client.js:131-143 | The outcome is AcceptOutcome's, and the new parameter map is ParamsAfterAnswer of the old one |
| ApiClient.Session.ExecuteDerivRules | routes/api/api_client.js:71-79 | The loop leaves the attributes and the error RunAll gives: every statement once, in stored order, stopping at the first that throws |
| ApiClient.Session.NullElements | routes/api/api_client.js:189-195 | The loop builds NullMap's map |
| ApiClient.Session.CompileAll | routes/api/api_client.js:197-201 | The loop builds the compiled rules in declaration order |
| ApiClient.Session.Init | routes/api/api_client.js:146-212 | The reply and the new session state are AfterInit of the old state |
| ApiClient.Session.Load | routes/api/api_client.js:161-205 | For a found model, the reply and new state are Loaded of the old state |
| ApiClient.Session.Clear | routes/api/api_client.js:184-201 | The user maps, rules and objects become Cleared's, and nothing else changes |
| ApiClient.Session.FillUserMaps | routes/api/api_client.js:184-195 | The user's attribute and parameter maps become the null maps of the model's attributes and parameters |
| ApiClient.Session.ResetForModel | routes/api/api_client.js:184-205 | The reply and new state are Reset of the old state |
| ApiClient.Session.Answer | routes/api/api_client.js:214-241 | The reply and the new session state are AfterAnswer of the old state, including a crash from a rule or the ranking after the answer was written |

## Left out

- Numbers are integers. Fractions, NaN and Infinity as data are not modelled. The `min` start value Infinity is the `Bound` datatype.
- `countObjectsStats` compares with `>` and `<`, which in JavaScript also order strings and mixed values. The model observes only number values: any other value creates the entry and leaves `min` and `max` unchanged.
- `toLowerCase` is modelled only where it can move a character between classes: Latin and Cyrillic capitals, the Kelvin sign and the dotted capital I.
- Objects are ordered key lists. Inherited keys such as `constructor` and the engine's reordering of integer-like keys are not modelled.
- `_.has` is modelled for plain keys, so lodash deep paths (a `param` with dots) are not modelled. `_.includes` compares primitives by value and never finds an array or object taken from a request.
- Loose equality `==` is modelled against a text. A number equals only its own decimal text (`5 == "5"`). Other texts that read as the same number (`"05"`, `" 5"`, `"5.0"`, `"0x5"`, and `""` for 0) are not modelled as equal. The structure test compares the model's `attributes.length` with the key count as a number, not loosely; the two differ only when `attributes` is not an array and carries a `length` text.
- The StringStream class is not part of this model. It is modelled as a text plus a cursor, with `poll` peeking and `next` advancing.
- JavaScript strings are sequences of UTF-16 code units. The model's text is a sequence of Unicode scalar values. For a character outside the Basic Multilingual Plane (U+10000 and above, such as an emoji), `charAt` returns a lone high surrogate, and the source reports "Unknown character" with that surrogate. The model reports the whole character instead.
- The rules compiler (parser, serializer, evaluator) is not part of this model. `compile` and `run` are function parameters, and the rules write only the attribute map.
- `attrsSimilarity` and `calculateObjects` are floating-point ranking. They are the `rank` parameter of `/answer`, so when they throw is not derived from their code. The model does capture that a throw crashes the request after the answer was stored.
- The question rewrite in `/init` (`delete q.param_id; q.param = ...`, api_client.js lines 176-182) is not modelled. It depends on how the document store exposes question objects.
- Express routing, HTTP status codes, response bodies, session storage and console logging are not modelled. Replies are datatypes.
- An exception thrown inside a route (a TypeError while reading through a missing value, or a throw from a rule or the ranking) is modelled as a crash reply. The session keeps every update made before the throw.
- validateModel writes `model.parameters` in place. The model returns the updated model as a value, so aliasing of the caller's object is not captured.
- `countObjectsStats` assigns `model.stats`. The model returns the statistics instead.
- The persistence functions (`saveObj`, `saveModel`, `deleteObj`, `deleteArrOfObjs`, `removeModel`, `getModel`, `getModelsList`, `saveObjects`, `validateObjectsInModel`) and the editor UI are not modelled. They are asynchronous database callbacks and DOM code.
- RulesLexer.ScanFrom: its own contract bounds only the cursor and the token length. The token text and the terminator rule are proved separately, in ScanFromText and ScanFromTerminator.
- RulesLexer.Lexer.GetNextToken: the StringStream here requires a character under the cursor before `next`, which the lexer always satisfies.
- ApiClient.RunAll: a statement that throws is taken to write no attribute before it throws. That holds when a compiled rule evaluates its condition before it makes its assignment, which the rules compiler decides, and the compiler is not part of this model.
