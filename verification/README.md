# Proofs about casos

casos runs applications on a Kubernetes cluster. This project models the parts of it that are
algorithms rather than plumbing, in Dafny, and proves what they are for:

- the template language: tokenizer, one-pass parser and evaluator, `if`/`elif`/`else` blocks,
  placeholders, and the two passes of a template preview and its deployment;
- reading compose files: variable interpolation, the command-line splitter and the shell quoter
  that is its right inverse, and deploying a project with its roll-back;
- state machines over the cluster: Git builds and their watcher, publishing domains on an Ingress,
  tuning databases with a history, the model gateway's in-flight counters, sending local
  repositories to DevBoxes;
- rewrites that keep meaning: pinning a run to its DevBox's node, and the two rewrites every
  rendered manifest goes through.

Check it with `dafny verify dfyconfig.toml`.

## How it is modelled

Code that computes is functions. Code that changes things step by step is methods and classes with
the same loops and branches, each proved against a specification function or a relation, about
which the lemmas then speak. The cluster is a map from names to objects; every call on it is one
atomic step that may fail. Deploying and uninstalling are functions of a script that says how each
call goes (it works, it fails, it fails after taking effect: `ClusterStore.CallsGo`) and in what order
a listing comes, so a statement for every script is one for every way the calls can go.

- `Common`: options, results, runs of characters. `Runs`: runs of a state machine.
- `TemplateValues`, `TemplateGrammar`: values, expressions as trees, how a tree is evaluated and how
  it is printed with the fewest parentheses.
- `TemplateParser`: the parser as functions on a token position and as the class whose `pos` moves.
- `TemplateRoundTrip`, `TemplateSoundness`: printing then parsing, and parsing then finding the tree.
- `TemplateMeaning`: what each operator, name and function comes to and how tightly they bind, said of
  the tokens and of the text, without the functions the parser uses.
- `TemplateTokenizer`, `TemplateLines`, `TemplateBlocks`, `TemplateDraws`, `TemplateRender`: text to
  tokens, text to lines and directives, blocks, evaluation that draws nothing at random, and whole
  templates. `TemplateForms`: what placeholders, branches and the form's fields come to, written out.
- `Interpolate`, `ShellWords`: variables and command lines in compose files.
- `ClusterStore`, `AppUninstall`, `ComposePlan`, `ComposeDeploy`, `ComposeWorks`, `ComposeFailures`: the objects
  of a namespace and the calls on them, uninstalling an app, planning and deploying a project, deploys
  whose calls work, and three failed deploys call by call.
- `GitBuild`, `PublishDomain`, `DatabaseParams`, `AiGateway`, `RepoUploads`: the state machines.
- `DatabaseEngines`: the four engines, and the shell line Redis is started with.
- `ManifestTree`, `ManifestRewriter`: the manifest rewrites as functions on trees, and as they run on
  a heap of maps.
- `PinToNode`: node affinity.

A 64-bit float is its bit pattern, and what is done with floats (adding, comparing, parsing,
writing) is a parameter, so every statement holds whatever those operations are. `random(n)` asks the
source for a string; the model keeps the list of lengths drawn so far and a draw is a function of
how many came before it, so equal lists mean the same draws in the same order. Go compares strings
byte by byte; characters in UTF-8 compare in the same order, and the model compares characters.
`strings.EqualFold` is equality under an arbitrary folding function.

## Where the code does less than one would like

Each of these is a property that fails on some input; the lemma named gives the exact condition.

- Git builds: a build finished before a later one started can still be deployed after it, when its
  job is removed while the watcher holds it in a list (`GitBuild.EarlierImageAfterJobGone`). No earlier
  image follows exactly in the runs that deploy no build which the watcher's list still held when
  another of its app was started (`GitBuild.NewestIffNoneOvertaken`); such a start is possible exactly
  when the listed build's job is gone (`GitBuild.LaterStartIffJobGone`).
- Git builds: an app someone deleted can come back without a build of it being started, when its first
  build was deployed but that could not be recorded, or is still under way
  (`GitBuild.DeletedAppReturns`, exact condition `GitBuild.ReturnsIff`).
- Compose roll-back: it deletes every claim of the app, also those the failed deploy found and did not
  make, such as the data an earlier uninstall kept so that the app would find it again
  (`ComposeFailures.KeptDataLost`, exact condition `ComposeDeploy.FailureRestoresIff`).
- Compose roll-back: Ingresses that cannot be listed are passed over and the clean-up still reports
  success (`ComposeFailures.IngressLeftBehind`, exact condition `ComposeDeploy.FailureRestoresIff`).
- Compose roll-back: what was made before the first Deployment cannot be cleaned up, since an app
  without a Deployment counts as not installed (`ComposeFailures.ClaimLeftBehind`, exact condition
  `ComposeDeploy.CleansUpIffDeployed`).
- Compose names: only Deployments are looked for before deploying, so a Service or Ingress of another
  app under the same name is taken over (`ComposeDeploy.OthersKeptIff`).
- Publishing: a host whose rule has no port, or that is blank, is dropped (`PublishDomain.HostKeptIff`),
  and with the last such rule goes the ingress class (`PublishDomain.ClassKeptIff`). Of every other host
  only the first port is kept: further paths, and routes to other Services, are lost
  (`PublishDomain.SplitIsPublished`, exact condition `PublishDomain.OtherRuleKeptIff`).
- Model gateway: a server that is not found once and found again starts from a count of zero, while its
  earlier requests still run (`AiGateway.GapIsForgotten`, exact condition `AiGateway.CountsAllIff`).
- Comparisons in templates: numbers and texts mixed have no order (`TemplateValues.CircleOfThree`; it takes
  exactly two numbers, `TemplateValues.CircleNeedsTwoNumbers`).
- Pinning: a node-affinity term with no requirements matches no node until the pin is put in it
  (`PinToNode.EmptyTermLetsNodeIn`, exact condition `PinToNode.PinIntersectsIff`).
- Placeholders: a dollar sign meant as it is starts a placeholder when what follows makes it one
  (`TemplateRender.SegmentsOfWritten` says exactly when).

`splitCommand` is documented as splitting the way compose does; within double quotes it takes a
backslash before any character as escaping it, where section 2.2.3 of the Shell Command Language
(IEEE Std 1003.1-2017) keeps the backslash before most. The model follows the code.

## Model

| member | source | states |
|---|---|---|
| TemplateValues.TextComparesOneWay | controllers/template_expr.go:372-404 | unless both are numbers two values compare in exactly one of three ways and the six operators agree about it; equality always goes by how values are written |
| TemplateValues.CircleNeedsTwoNumbers | controllers/template_expr.go:372-404 | where the order on numbers is one, `<` goes round in a circle of three values only if exactly two of them are numbers |
| TemplateValues.CircleOfThree | controllers/template_expr.go:372-404 | and then it does: 9 < 10 as numbers, "10" < "1x" < "9" as texts |
| TemplateParser.ExprParser.AcceptOp | controllers/template_expr.go:302-314 | the parser moves past a token exactly when it is an operator of the list, and nothing else changes |
| TemplateParser.ExprParser.ParseOr | controllers/template_expr.go:316-334 | the loop takes what the token-level specification of level 0 takes: result, position and random draws |
| TemplateParser.ExprParser.ParseAnd | controllers/template_expr.go:336-354 | the same for level 1 |
| TemplateParser.ExprParser.ParseComparison | controllers/template_expr.go:356-370 | the same for level 2, where one comparison is taken and none chained |
| TemplateParser.ExprParser.ParseSum | controllers/template_expr.go:417-438 | the same for level 3, to the left |
| TemplateParser.ExprParser.ParseUnary | controllers/template_expr.go:440-449 | the same for level 4 |
| TemplateParser.ExprParser.ParsePrimary | controllers/template_expr.go:451-528 | the same for literals, names, calls and parentheses, with their errors |
| TemplateParser.ExprParser.ParseArguments | controllers/template_expr.go:486-504 | arguments are evaluated left to right, up to the closing parenthesis |
| TemplateParser.ExprParser.ParsePath | controllers/template_expr.go:507-518 | a dotted name is read whole |
| TemplateParser.LevelAt | controllers/template_expr.go:316-449 | every level terminates, moves forward when it accepts, stays within the tokens, and only adds draws |
| TemplateParser.Evaluate | controllers/template_expr.go:276-293 | the method is the specification: no token may be left over, and no tokens at all are nil |
| TemplateRoundTrip.EvaluatesLikeTree | controllers/template_expr.go:276-528 | for every tree, parsing and evaluating in one pass what is printed of it, with parentheses only where its shape needs them, gives what evaluating the tree gives: value or error, and the same draws in the same order |
| TemplateGrammar.FewestParentheses | controllers/template_expr.go:316-449 | no tree that is the same but for parentheses prints shorter than the one without any of its own |
| TemplateGrammar.UngroupEvaluates | controllers/template_expr.go:462-479 | such parentheses change neither value nor draws |
| TemplateMeaning.OrAndGive | controllers/template_expr.go:316-354 | of two operands that come to x and then y, the or operator gives x if that counts as true and y otherwise, the and operator the other way round; false are nil, false, a zero, "" and "false" |
| TemplateMeaning.PlusGives | controllers/template_expr.go:417-438 | `+` gives the sum when both read as numbers, and otherwise the texts one after the other |
| TemplateMeaning.NumbersCompare | controllers/template_expr.go:372-404 | with two numbers `<`, `<=`, `>` and `>=` go by the order on floats |
| TemplateMeaning.TextsCompare | controllers/template_expr.go:372-404 | with one that is no number they go by the texts, character by character; `==`, `===`, `!=` and `!==` always do |
| TemplateMeaning.FirstErrorCounts | controllers/template_expr.go:316-438 | operands are evaluated left to right whatever they come to, and the first error is that of the whole |
| TemplateMeaning.NotGives | controllers/template_expr.go:440-449 | `!` gives whether its operand counts as false |
| TemplateMeaning.ParensGive | controllers/template_expr.go:462-479 | parentheses change nothing |
| TemplateMeaning.LiteralsGive | controllers/template_expr.go:451-479 | strings stand for themselves, numbers for what they read as, or an error |
| TemplateMeaning.BareNameGives | controllers/template_expr.go:37-60 | a bare name is a boolean, or the environment's, the template's or the form's value of that name, in that order, or empty |
| TemplateMeaning.DottedNameGives | controllers/template_expr.go:37-60 | a dotted name is a value of the template or of the form; any other is empty |
| TemplateMeaning.RandomGives | controllers/template_expr.go:62-80 | how many characters `random` draws: 8 without a number or with one that is not positive, never more than 64 |
| TemplateMeaning.Base64Gives | controllers/template_expr.go:530-555 | what the two other functions give, for no argument and for what cannot be decoded, and the error of any other |
| TemplateMeaning.TighterFirst | controllers/template_expr.go:316-449 | three operands and two operators without parentheses: `+` binds before comparisons, they before and, and before or, on either side |
| TemplateMeaning.LeftFirst | controllers/template_expr.go:316-438 | of the same operator twice the left one goes first |
| TemplateMeaning.NotFirst | controllers/template_expr.go:440-449 | `!` binds before any of them |
| TemplateMeaning.SpelledEvaluates | controllers/template_expr.go:213-293 | and a text that spells an expression of words, numerals and strings, with blanks between, comes to what its tokens come to |
| TemplateMeaning.RunesAre | controllers/template_expr.go:222-274 | the blanks, quotes, digits and name characters, one by one |
| TemplateRoundTrip.ReadBack | controllers/template_expr.go:316-449 | the same at any place in a longer token list, at any level, stopping where the tree ends |
| TemplateSoundness.AcceptedIffPrinted | controllers/template_expr.go:276-528 | a non-empty token list evaluates to a value exactly when it is the printing of some tree that evaluates to it, with the same draws |
| TemplateSoundness.Sound | controllers/template_expr.go:316-449 | whatever a level accepts is the printing of a tree with that value |
| TemplateSoundness.PrintDeterminesMeaning | controllers/template_expr.go:276-528 | two trees that print alike evaluate alike |
| TemplateSoundness.PrintedTextEvaluates | controllers/template_expr.go:213-293 | the same from text: printed tokens, with any blanks between them, evaluate to what the tree does |
| TemplateSoundness.TextAcceptedIffSpelled | controllers/template_expr.go:213-293 | a text with a token in it evaluates to a value exactly when it spells a tree with that value |
| TemplateTokenizer.Tokenize | controllers/template_expr.go:213-263 | the loop over the input is the specification, errors included |
| TemplateTokenizer.MatchOperator | controllers/template_expr.go:246-254 | the operator found is a prefix, and no operator that is one is longer |
| TemplateTokenizer.SkipWhile | controllers/template_expr.go:222-244 | the index reached is the end of the longest run |
| TemplateTokenizer.LexIffConsists | controllers/template_expr.go:213-263 | a text gives these tokens exactly when it is blanks and spellings of them one after the other, covering it to the end |
| TemplateTokenizer.LexRender | controllers/template_expr.go:213-263 | any well-formed tokens written with blanks between them are read back |
| TemplateTokenizer.OperatorFits | controllers/template_expr.go:246-254 | with longer operators listed first, the first that fits is the longest |
| TemplateTokenizer.EvaluateTemplateExpression | controllers/template_expr.go:276-293 | text to value, through both |
| TemplateLines.DirectiveIff | controllers/template_expr.go:23 | a line is read as a directive with that keyword and expression exactly when it is one, written with any space around its parts |
| TemplateLines.SpacesAre | controllers/template_expr.go:22-23 | the spaces and the keywords, one by one |
| TemplateLines.LinesOfText | controllers/template_expr.go:106 | however the lines of a text are ended, the text is those lines |
| TemplateLines.JoinedSplit | controllers/template_expr.go:106 | splitting a text loses nothing and leaves no newline in a line |
| TemplateLines.SeparatorIff | store/templates.go:282 | a separator is three dashes with nothing but spaces and tabs after them |
| TemplateLines.SplitYamlDocuments | store/templates.go:276-291 | the loop over lines is the specification |
| TemplateLines.DocumentsOfText | store/templates.go:276-291 | documents, with lines or without, written with separators between them are read back |
| TemplateBlocks.ApplyConditionals | controllers/template_expr.go:105-165 | from the text: the loop over its lines with its stack is the fold of one step over the lines classified |
| TemplateBlocks.ReadLine | controllers/template_expr.go:128-162 | one line is one step, whichever directive or text it is |
| TemplateBlocks.TextRendersTree | controllers/template_expr.go:105-165 | a well-nested document written out as text, its lines ended either way, renders as the tree does |
| TemplateBlocks.MachineRendersTree | controllers/template_expr.go:105-165 | on every well-nested document the machine keeps what rendering the tree keeps, the first truthy branch of each block at any depth, evaluating the same conditions in the same order |
| TemplateBlocks.RunDoc | controllers/template_expr.go:105-165 | the same inside any stack: a cut region evaluates and keeps nothing, and the stack comes back |
| TemplateBlocks.ReachableConsistent | controllers/template_expr.go:109-162 | on any input, unbalanced ones too, a block is enclosed exactly when all below are active, active implies enclosed and taken, and the output is live exactly when the stack is empty or its top active |
| TemplateBlocks.AskedIff | controllers/template_expr.go:128-158 | a condition is evaluated exactly when its `if` stands in a live place, or its `elif` belongs to an enclosed block that has taken no branch |
| TemplateBlocks.AtMostOneLiveBranch | controllers/template_expr.go:128-158 | after a branch that was taken, or an else, no later branch of the block is active |
| TemplateDraws.EvaluateQuietly | controllers/template_expr.go:276-293 | an evaluation that draws nothing gives the same whatever was drawn before it |
| TemplateDraws.RunQuietly | controllers/template_expr.go:105-165 | so does a run of lines |
| TemplateRender.SegmentsOfWritten | controllers/template_expr.go:89-101 | any literals and placeholders written out are found again, piece by piece, exactly when no literal dollar sign starts a placeholder with what follows it |
| TemplateRender.ResolveQuietly | controllers/template_expr.go:89-101 | substitution that draws nothing gives the same whatever was drawn before |
| TemplateRender.RenderedDefaults | controllers/template.go:236-252 | the loop over the sorted keys is the fold, each default seeing those before it |
| TemplateRender.RenderTemplate | controllers/template.go:394-429 | instance, values, documents and missing fields, as one function of template, request, environment, gateway and draws |
| TemplateRender.DefaultsAgain | controllers/template.go:236-252 | handing back the defaults a pass came to, a second pass comes to the same |
| TemplateRender.InputsAgain | controllers/template.go:400-416 | the same for the form's fields, and none is missing that was not |
| TemplateRender.DeployRendersPreview | controllers/template.go:394-429 | deploying with the defaults and inputs a preview answered renders the previewed documents and values, whatever the random source answers then, when the preview drew only for values that came out non-empty |
| TemplateForms.PlaceholderBecomes | controllers/template_expr.go:89-101 | a placeholder becomes what its expression is written as, or nothing if that is in error, and what follows it is what it would be alone, with the draws going on |
| TemplateForms.LiteralStays | controllers/template_expr.go:89-101 | anything else stays as it is |
| TemplateForms.HoldsIffTrue | controllers/template_expr.go:167-187 | a branch holds exactly when its condition comes to a value that counts as true; an error does not |
| TemplateForms.CutIsNotEvaluated | controllers/template_expr.go:85-87 | a written document is rendered by its blocks first, and only what they leave is looked at for placeholders |
| TemplateForms.DefaultIs | controllers/template.go:236-252 | a value of the template is what was given back, if anything, and otherwise its text rendered with the values before it |
| TemplateForms.FieldIsMissing | controllers/template.go:405-441 | a field is missing exactly when it is required, blank, and its condition, if it has one, comes true; only then is the condition evaluated |
| TemplateForms.InputsAre | controllers/template.go:399-416 | field by field: each has what was filled in or its default, sees the values before it, and the missing ones are listed in order |
| TemplateForms.RenderedIs | controllers/template.go:394-429 | the whole: the instance is named by `app_name`, or by the template and six characters drawn after all fields; the documents are those of the rendered text, its addresses rewritten exactly when the gateway serves the domain |
| Interpolate.Interpolate | controllers/compose.go:114-156 | the scan is the specification, adding to the names already missing |
| Interpolate.ResolveWritten | controllers/compose.go:110-156 | literals with dollar signs doubled and references of all six forms, written out and interpolated, give the string denoted, without looking again at what was inserted; the missing names are exactly those whose references lack a required value |
| Interpolate.DefaultsGive | controllers/compose.go:114-156 | the forms `:-`, `-`, `:+` and `+`, written out and resolved: the variable's value, the argument or nothing, by whether it is set, or set to something; none is missing |
| Interpolate.RequiredGive | controllers/compose.go:114-156 | the forms `:?`, `?`, plain and bare: the value, and the name missing exactly when it is not set, with a colon also when it is empty |
| Interpolate.OthersGive | controllers/compose.go:114-156 | two dollar signs are one, and every other character stands for itself |
| Interpolate.FoundIsWritten | controllers/compose.go:110-112 | whatever is recognised as a reference is one as it would be written, so nothing else is taken for one |
| Interpolate.NamesAre | controllers/compose.go:110-112 | the characters of a name, one by one |
| Interpolate.BracedIsFound | controllers/compose.go:110-112 | a braced reference is recognised whole, whatever follows it |
| ShellWords.SplitCommand | controllers/compose.go:202-240 | the loop is the automaton |
| ShellWords.SplitSaysWords | controllers/compose.go:202-240 | words written with bare characters, backslashes and both kinds of quotes, with blanks between them, split into what each means |
| ShellWords.ClosedIffWritten | controllers/compose.go:202-240 | the lines that leave no quote or backslash open are exactly those so written |
| ShellWords.QuotedIsPieces | deploy/executor.go:385-387 | what the quoter makes of any string is one word that means the string |
| ShellWords.SplitInvertsQuote | controllers/compose.go:202-240 | any list of strings, empty ones and ones with quotes, backslashes and newlines among them, quoted and joined by any blanks, splits into that list |
| ShellWords.BlanksAre | controllers/compose.go:202-240 | the blanks, one by one |
| GitBuild.AtMostOneUnmarked | controllers/git_build.go:348-490 | in every run an app has at most one build without a recorded state |
| GitBuild.RecordedForGood | controllers/git_build.go:699-712 | a recorded state never changes |
| GitBuild.PresentIsLatest | controllers/git_build.go:662-697 | a listed build whose job is still there is the last started for its app |
| GitBuild.NoEarlierImageAfterStart | controllers/git_build.go:662-792 | in runs that take no listed job away, once a build has started no earlier one's image is put on the app |
| GitBuild.NewestIffNoneOvertaken | controllers/git_build.go:662-792 | in all runs, every image put on an app is that of the last build started for it exactly when no build is deployed that the watcher's list held when another of its app was started |
| GitBuild.LaterStartIffJobGone | controllers/git_build.go:348-401 | while a build waits in the watcher's list as its app's last, another can start, and overtake it, exactly when its job is gone and the app is not of another kind |
| GitBuild.EarlierImageAfterJobGone | controllers/git_build.go:662-697 | a run in which the earlier image is deployed last |
| GitBuild.OnlyFirstBuildsCreate | controllers/git_build.go:732-792 | in every run, when the watcher brings an app into being it is with a build that some earlier step started while there was no Deployment of the app |
| GitBuild.ReturnsIff | controllers/git_build.go:662-792 | from any state without the app, some run in which nobody starts a build of it or deploys something else under its name brings it back exactly when a first build of it is still to be deployed: its job has no recorded state and has not failed, or the watcher's list holds it completed |
| GitBuild.DeletedAppReturns | controllers/git_build.go:699-792 | the run in which a deployed app is deleted and its first build, whose state was not recorded, puts it back |
| GitBuild.Cluster.ActiveGitBuild | controllers/git_build.go:348-359 | true exactly when some job of the app has no recorded state |
| GitBuild.Cluster.StartGitBuild | controllers/git_build.go:363-490 | starts exactly when the request passes its checks, every call up to the job answers and the start step is allowed, and then is that step; otherwise nothing changes |
| GitBuild.Cluster.DeployGitBuild | controllers/git_build.go:732-792 | the deployment part of the watcher's step, with each way it can fail |
| GitBuild.Cluster.MarkGitBuild | controllers/git_build.go:699-712 | the state is recorded on the job, unless the patch is lost or the job gone |
| GitBuild.Cluster.DeployFinishedGitBuilds | controllers/git_build.go:662-697 | for any way the calls go and anything others do between them, a turn comes to what working through one complete listing comes to |
| GitBuild.Cluster.ListPending | controllers/git_build.go:667-682 | a listing holds every finished job without a recorded state, each once, and no other |
| GitBuild.TurnIsRun | controllers/git_build.go:662-697 | such a turn is a run of the state machine |
| GitBuild.TurnAlone | controllers/git_build.go:662-792 | a turn without interference: every pending job has its recorded state (failed, deployed or failed to deploy, by its build, its app and its calls, or none when it cannot be recorded), every app of a completed build that is there, or is to be created, has that build's image, and nothing else changes |
| PublishDomain.App.PublishDomain | controllers/mcp_tools.go:791-828 | works exactly when there is a port, the reads answer, and the write, if one is needed, does; a failure changes nothing; success leaves one rule for each host that is kept, in any order, with class, TLS and labels as they should be |
| PublishDomain.App.DomainsOf | controllers/launchpad.go:519-542 | each rule's host and first port, in order |
| PublishDomain.App.ValidDomains | controllers/launchpad.go:355-363 | the loop keeps what the filter keeps |
| PublishDomain.App.ReconcileIngress | controllers/launchpad.go:367-426 | removed, created or rewritten, TLS untouched |
| PublishDomain.App.BuildRules | controllers/ingress.go:100-136 | however the map is iterated, each listed host has exactly one rule with its paths in order |
| PublishDomain.PublishKeepsGood | controllers/mcp_tools.go:791-828 | from an Ingress of distinct hosts with ports: the host published answers first on the new port, every other first on the port it did, no other host appears, and each rule is one route to the app's Service |
| PublishDomain.OtherRuleKeptIff | controllers/launchpad.go:529-535 | the rule of another host is unchanged exactly when it was one route from the root to the app's own Service |
| PublishDomain.SplitIsPublished | controllers/launchpad.go:395-409 | publishing a second host on an Ingress that sends /api to another Service |
| PublishDomain.SplitIsGoodAndLost | controllers/launchpad.go:395-409 | that Ingress was in good order, and its rule is gone |
| PublishDomain.RunPublishes | controllers/mcp_tools.go:791-828 | over any run of publishes no host is lost or made up, and each has one rule with the port last published for it |
| PublishDomain.RunKeepsClassAndTls | controllers/launchpad.go:419-423 | over any run the class and the TLS section stay |
| PublishDomain.HostKeptIff | controllers/launchpad.go:355-363 | from any Ingress, a host survives exactly when it is not blank and is the one published or has a port |
| PublishDomain.ClassKeptIff | controllers/launchpad.go:388-393 | from any Ingress, the class survives exactly when a rule does |
| PublishDomain.ClassIsFirst | controllers/launchpad.go:388-393 | the class is the first one a domain names |
| PublishDomain.WrittenOut | controllers/launchpad.go:394-425 | every path written is the root of its host and leads to the app's own Service on a positive port; the labels mark the Ingress as the app's, and all others are kept |
| PublishDomain.EmptiedIs | controllers/launchpad.go:379-386 | with no domain left the Ingress is deleted exactly when its labels say it is casos's and the app's |
| PublishDomain.ValidFilters | controllers/launchpad.go:355-363 | the domains kept are those with a host that is not blank and a positive port, in order and multiplicity |
| DatabaseParams.Database.ConfigureDatabase | controllers/database_params.go:133-215 | rejected exactly when a value asked for is no good or there is something to save and that fails; rejected and unchanged it has no effect, and otherwise values, history and command are as configured |
| DatabaseParams.Database.Plan | controllers/database_params.go:179-199 | values and changes, and valid exactly when every value asked for is |
| DatabaseParams.Database.ApplyDatabaseParams | controllers/database_engine.go:342-359 | the command is the rendering of the values, and refused exactly when one it would render is no good |
| DatabaseParams.RunExplained | controllers/database_params.go:54-215 | over any run from an untuned database: the command renders the stored values, at most 20 entries are kept, none empty, each changes parameters of the engine, none twice, to a different value, and each key's changes lead one to the next, from the default while none was dropped, to the value in effect |
| DatabaseParams.ChangesAreReal | controllers/database_params.go:194-198 | what one call records are such changes |
| DatabaseParams.EffectiveIsNewestChange | controllers/database_params.go:71-76 | the newest change kept of a key is what put its value in effect |
| DatabaseParams.ReadBackChangesNothing | controllers/database_params.go:88-126 | sending back the values read is valid and changes nothing |
| DatabaseParams.AskingAgainChangesNothing | controllers/database_params.go:179-204 | asking twice for the same changes nothing the second time |
| DatabaseParams.StoredAre | controllers/database_params.go:179-204 | stored are exactly the values asked for of known parameters that are neither empty nor the default |
| DatabaseParams.ChangesAre | controllers/database_params.go:194-198 | the changes recorded are exactly those parameters whose value in effect is not the one asked for, in their order, from the one to the other |
| DatabaseParams.HistoryIs | controllers/database_params.go:54-70 | the history is the new entry before those there were, the oldest of more than twenty dropped |
| DatabaseParams.FlagsAre | controllers/database_engine.go:342-359 | the flags are those of the values that are not the default, parameter by parameter |
| DatabaseParams.RenderableIff | controllers/database_engine.go:342-359 | a value can be rendered exactly when it is the default or valid |
| DatabaseParams.ValidIs | controllers/database_engine.go:313-340 | a value is valid exactly when it is plain, 1 to 32 characters long, or 33 with a minus sign, and a number, a size or a choice if its parameter takes one |
| DatabaseParams.WholeNumbers | controllers/database_engine.go:313-340 | whole numbers are those that fit 64 bits, with a sign or without |
| DatabaseParams.NoWholeNumbers | controllers/database_engine.go:313-340 | nothing with another character in it is one |
| DatabaseParams.SizesAre | controllers/database_engine.go:313-340 | a size is digits and at most two letters |
| DatabaseParams.PlainAre | controllers/database_engine.go:313-316 | the characters of a value, one by one |
| DatabaseParams.CatalogueIsSensible | controllers/database_engine.go:105-293 | the four engines have distinct keys and valid defaults, as the above requires |
| DatabaseEngines.ToldAs | controllers/database_engine.go:105-293 | how each engine is told a value, and what it is started with |
| DatabaseEngines.RedisLineSplits | controllers/database_engine.go:257-268 | the shell line of Redis with plain flags splits into its fixed words and then exactly the flags |
| DatabaseEngines.RedisRunsWhatIsStored | controllers/database_engine.go:313-340 | over any run of calls that line holds the flags of the stored values word for word, every one a plain word: no value means anything to the shell |
| DatabaseEngines.RedisLineTellsFlags | controllers/database_engine.go:257-268 | different flags make different lines |
| AiGateway.FindOllamaPods | controllers/ai_gateway.go:144-171 | the keys found are distinct and exactly those of ready pods some Ollama service selects |
| AiGateway.ServesIff | controllers/ai_gateway.go:154-166 | which pods these are: of the service's namespace, with every label of its selector, which is not empty, ready and not being deleted |
| AiGateway.CountersCount | controllers/ai_gateway.go:90-140 | in every interleaving of requests and refreshes each counter is the number of requests holding it, and listed backends share none |
| AiGateway.ListedIsOpen | controllers/ai_gateway.go:105-139 | no transport is closed twice, or while listed |
| AiGateway.ListedKeepsCounter | controllers/ai_gateway.go:105-139 | a key listed without a gap keeps its counter and transport |
| AiGateway.OneOwner | controllers/ai_gateway.go:105-139 | in every run a counter is only ever one key's |
| AiGateway.CountsAllIff | controllers/ai_gateway.go:105-139 | in every run a listed key's counter is at most the number of requests in flight for the key, and equals it exactly when the key has been listed without a gap since each of them got the server |
| AiGateway.GapIsForgotten | controllers/ai_gateway.go:105-139 | the run with a gap, where the counter says zero while a request is in flight |
| AiGateway.Gateway.RefreshList | controllers/ai_gateway.go:90-140 | listed keys found again keep what they had, new ones get their own, and the transports closed are exactly those of keys that vanished |
| AiGateway.Gateway.PickAIBackend | controllers/ai_gateway.go:290-298 | the first of the least loaded backends with the model, none exactly when no backend has it |
| AiGateway.Gateway.BeginRequest | controllers/ai_gateway.go:399-400 | one more request holds the backend's counter |
| AiGateway.Gateway.EndRequest | controllers/ai_gateway.go:399-400 | the request lets go of the counter it took |
| RepoUploads.AtMostOneTransfer | controllers/devbox_local.go:136-191 | in every run each pod has at most one transfer running, none once one ended for good, and between ticks the busy set holds only pods of the last listing |
| RepoUploads.SentIffNotServed | controllers/devbox_local.go:165-183 | a waiting pod the tick comes to is sent to exactly when no transfer to it runs or has ended for good |
| RepoUploads.ServedOnce | controllers/devbox_local.go:165-191 | after a transfer that asks for no retry none is begun again |
| RepoUploads.TransfersConserved | controllers/devbox_local.go:153-191 | transfers begun are those running and those ended |
| RepoUploads.SendsBounded | controllers/devbox_local.go:153-191 | a pod is sent to at most once more than a retry was asked for |
| RepoUploads.Uploader.SendWaitingLocalRepos | controllers/devbox_local.go:153-191 | for any way the calls go, any pods that wait and anything going on beside it, a tick comes to what visiting each waiting pod of one listing and then sweeping the set comes to |
| RepoUploads.TickIsRun | controllers/devbox_local.go:153-191 | such a tick is a run of the state machine |
| RepoUploads.TickAlone | controllers/devbox_local.go:153-191 | a tick with nothing going on beside it: a transfer is begun to exactly the pods that wait and are not in the set, and the set is then those of it and of the waiting that there are |
| RepoUploads.Uploader.FinishTransfer | controllers/devbox_local.go:175-181 | a retry takes the pod out of the set, anything else leaves it in |
| ManifestTree.QuoteLeavesIff | controllers/template_apply.go:250-274 | quoting leaves a tree as it is exactly when no variable of an env the walk reaches has a bare number or boolean |
| ManifestTree.QuoteQuotes | controllers/template_apply.go:250-274 | and reaches that state |
| ManifestTree.QuoteTwice | controllers/template_apply.go:250-274 | quoting twice is quoting once |
| ManifestTree.QuoteAtPath | controllers/template_apply.go:250-274 | every node keeps its place; the values of such variables become strings, and no other node changes |
| ManifestTree.ValueBecomesString | controllers/template_apply.go:258-267 | the value of such a variable becomes "true", "false" or its number as written, and stays if it is anything else |
| ManifestTree.EnvBecomesStrings | controllers/template_apply.go:250-274 | so it is for every entry of the env of any container |
| ManifestTree.StripLeavesIff | controllers/template_apply.go:194-227 | stripping leaves a tree as it is exactly when every list of pull secrets the walk reaches is non-empty and names only secrets there are |
| ManifestTree.StripStrips | controllers/template_apply.go:194-227 | and reaches that state |
| ManifestTree.StripTwice | controllers/template_apply.go:194-227 | stripping twice is stripping once |
| ManifestTree.StripAtPath | controllers/template_apply.go:194-227 | outside the lists of pull secrets every node keeps its place and nothing changes |
| ManifestTree.KeptOnlyPicks | controllers/template_apply.go:197-209 | the references kept are exactly those that are no object or name a known secret, in order and each as often as it was there |
| ManifestTree.PullsStay | controllers/template_apply.go:194-227 | so it is for the pull secrets of every object the walk comes to; the list goes when none is kept |
| ManifestTree.RewritesCommute | controllers/template_apply.go:146-147 | the order of the two makes no difference, on any tree |
| ManifestRewriter.QuoteEnvValues | controllers/template_apply.go:250-274 | run on the heap, in any order of keys, it leaves the quoted layout in the same objects and touches no other |
| ManifestRewriter.QuotedTree | controllers/template_apply.go:250-274 | that layout is the quoted tree |
| ManifestRewriter.StripMissingImagePullSecrets | controllers/template_apply.go:194-227 | the same for stripping |
| ManifestRewriter.KeepRefs | controllers/template_apply.go:197-209 | the references kept are those the filter keeps, in order |
| ManifestRewriter.StrippedTree | controllers/template_apply.go:194-227 | that layout is the stripped tree |
| ManifestRewriter.SecretCache.SecretExists | controllers/template_apply.go:229-246 | from the first question on every question has one answer |
| ManifestRewriter.PrepareDocument | controllers/template_apply.go:146-147 | both in turn: the same objects then hold the tree rewritten, with both goals reached |
| PinToNode.PinPod | controllers/devbox_run.go:304-322 | the affinity then says what it said, pinned; every other part of it is kept |
| PinToNode.PinSays | controllers/devbox_run.go:304-322 | the pinned affinity written out: the pin is added to the fields of every term, or is the only term, and nothing else of it changes |
| PinToNode.BuildRun | controllers/devbox_run.go:186-252 | nothing that existed is changed, the run shares no object, its pod is the DevBox's with the run's container, volumes, runtime and pin, and it is built exactly when there is a container and a disk and the limits are good |
| PinToNode.RunsIff | controllers/devbox_run.go:186-238 | a run is built exactly when there is a container, limits that can be applied, and a claim among the volumes that are not the tools' |
| PinToNode.RunIs | controllers/devbox_run.go:186-252 | the pod written out: one container named run with the editor's image, the shell line, folder, resources, and in order the mounts, volumes and variables that are not the tools' or hidden, the GPU's variables and runtime class if asked for, everything else taken over |
| PinToNode.DevboxRunEnv | controllers/devbox_run.go:283-302 | the variables kept, and those a GPU needs |
| PinToNode.RunEnvHides | controllers/devbox_run.go:283-302 | a run sees exactly the editor's other variables and those of the GPU, and never its password or key |
| PinToNode.PinnedAccepts | controllers/devbox_run.go:304-322 | which nodes a pinned pod accepts, for any terms |
| PinToNode.PinIntersectsIff | controllers/devbox_run.go:304-322 | that is what it accepted before, cut to the pinned node, exactly when each term requires something, there being some if any are required, or the node was accepted anyway |
| PinToNode.EmptyTermLetsNodeIn | controllers/devbox_run.go:319-321 | an input where it is not |
| PinToNode.PinnedTwice | controllers/devbox_run.go:304-322 | pinning to the same node again changes no node's acceptance |
| PinToNode.RunMountsResolve | controllers/devbox_run.go:195-213 | a run mounts only volumes it has, if the DevBox did |
| ComposeDeploy.DeployCompose | controllers/compose.go:662-692 | is the function of the script; refused without effect, or done with every service complete, or failed; after a successful clean-up no name is taken, and from a clear start all there was is there still exactly when none of it, of the kinds swept, belonged to the app, and the store is as it was exactly when besides the Ingresses answered or none was new; other apps out of the way are untouched in every case |
| ComposeDeploy.DeployKeeps | controllers/compose.go:662-692 | for every script: the same, and what a clean-up leaves is what was built without what belongs to the app, which had a Deployment |
| ComposeDeploy.DeployAppWorkload | controllers/app.go:105-185 | is the function of the script, for requests as compose makes them |
| ComposeDeploy.ServiceDeployed | controllers/app.go:105-185 | only the service's own Service and Ingress may have been replaced, what is new is its owner's, and when it works all it asked for is there |
| ComposeDeploy.EnsureDeploymentPVCs | controllers/deployment_storage.go:78-106 | is the function of the script |
| ComposeDeploy.ClaimsEnsured | controllers/deployment_storage.go:78-106 | when it works every claim asked for is there, each under its own name, and none that was is changed |
| ComposeWorks.ClaimNamesApart | controllers/deployment_storage.go:26-28 | no two volumes have the same claim, of one service or of two |
| ComposeWorks.DoneHasDisks | controllers/deployment_storage.go:54-106 | a project that is deployed where none of its claims were has one for each volume with a place to be mounted, of the size asked for or 1Gi, and each service's pod mounts its own where asked |
| ComposeWorks.DoneIffNoneTaken | controllers/compose.go:662-692 | with every call working a deploy is done, every service complete, exactly when no name of the project has a Deployment, and otherwise refused |
| ComposeWorks.ServiceAddsOwn | controllers/app.go:105-185 | whatever the script, a service makes nothing but its Deployment, Service, Ingress and claims |
| ComposeWorks.LabelsAre | controllers/image_app.go:41-50 | the labels of what a service makes |
| ComposeWorks.ClassIs | controllers/launchpad.go:388-393 | the class of its Ingress is the first one its domains name, if one does |
| ComposeDeploy.ReconcileAppService | controllers/image_app.go:289-344 | is the function of the script |
| ComposeDeploy.ServiceReconciled | controllers/image_app.go:289-344 | one Service created, updated or deleted by the ports, and nothing else |
| ComposeDeploy.ReconcileAppIngress | controllers/launchpad.go:367-426 | is the function of the script |
| ComposeDeploy.IngressReconciled | controllers/launchpad.go:367-426 | one Ingress created, updated or deleted, with its domains and class, and nothing else; one that was there keeps its TLS |
| ComposeDeploy.AddComposeHeadlessService | controllers/compose.go:698-712 | is the function of the script |
| ComposeDeploy.HeadlessAdded | controllers/compose.go:698-712 | a Service without ports, where there was none |
| AppUninstall.UninstallImageApp | controllers/image_app.go:503-560 | is the function of the script |
| AppUninstall.UninstallRemoves | controllers/image_app.go:503-560 | nothing is lost but what belonged to the app; success means there was a Deployment and all of it is gone, of the kinds that must be listed and of the others that could be |
| AppUninstall.UninstallsIffDeployed | controllers/image_app.go:519-521 | with every call working it succeeds exactly when the app has a Deployment, and otherwise changes nothing |
| AppUninstall.DeleteAppExtras | controllers/launchpad.go:701-761 | is the function of the script |
| AppUninstall.ExtrasSwept | controllers/launchpad.go:701-761 | what belongs to the app is gone of the extras that could be listed, if no deletion failed |
| ClusterStore.BelongsIff | controllers/launchpad.go:701-761 | what belongs to an app: what is labelled as casos's and the app's, and the jobs that build it |
| ComposeDeploy.RestoredIff | controllers/launchpad.go:704-713 | what was built without what belongs to the app holds all there was exactly when none of that was replaced and none of it, of the kinds swept, belonged to the app; and it is what there was exactly when besides the Ingresses could be listed or none was new |
| ComposeDeploy.FailureRestoresIff | controllers/compose.go:660-692 | so it is for every deploy that fails and is cleaned up, whatever the script and the start; from a clear start nothing is replaced |
| ComposeDeploy.CleansUpIffDeployed | controllers/compose.go:682-686 | with every call of it working, the clean-up succeeds exactly when some Deployment had been added, and otherwise leaves all as it is |
| ComposeFailures.IngressLeftBehind | controllers/launchpad.go:704-713 | the deploy whose second service fails and whose Ingresses cannot be listed, call by call: it ends cleaned up with the Ingress left |
| ComposeFailures.ClaimLeftBehind | controllers/image_app.go:519-521 | the deploy whose first Deployment is refused, every other call working: the clean-up fails and the claim is left |
| ComposeFailures.KeptDataLost | controllers/image_app.go:470-473 | an app deployed, uninstalled with its data kept, and deployed again: that fails, and its clean-up deletes the kept data |
| ComposeFailures.SomeScriptIsFair | controllers/compose.go:662-692 | there are such scripts, for any answers |
| ComposeDeploy.CleanedUp | controllers/compose.go:660-692 | from any start, a successful clean-up leaves nothing of the app but what could not be listed, and no name taken, so a retry is not refused |
| ComposeDeploy.OthersUntouched | controllers/image_app.go:503-560 | objects of other apps outside the services' own names are as they were, however it ended |
| ComposeDeploy.OthersKeptIff | controllers/compose.go:666-676 | when it succeeds, those of all other apps are exactly when none was a Service or Ingress in the way |
| ComposePlan.PickMain | controllers/compose.go:398-415 | the main service is the first of the best: the project's namesake, a published one that is no database, a published one, any |
| ComposePlan.MainIs | controllers/compose.go:398-415 | case by case which one that is |
| ComposePlan.AssignOwners | controllers/compose.go:373-395 | every request ends up with the main service for its owner, and a domain only with a port; the plan is one as deploying needs it |
| ComposePlan.GivenIs | controllers/compose.go:373-395 | what each request is given: component and owner unless it is the main one, and a published service its first port under the project's host or its own |

## Left out

- Regular expressions are written out as scanners; there are five fixed patterns (placeholders,
  interpolation, database values and sizes, block directives).
- Error messages carry no text beyond what tells the errors apart.
- TemplateRender.RenderTemplate: how the app gateway rewrites addresses in a text, and which domains it
  serves, are any functions; so is how a domain and its port suffix are chosen beforehand.
- The final sort of `findOllamaPods`, and asking each server for its models over the network: a server
  found comes with the models it answered.
- The model gateway's mutex: a refresh is one step, as it is under the lock.
- GitBuild.Cluster.StartGitBuild: what the checks on name, repository and token are, saving the token and
  preparing the registry; that any of it fails is one way not to start. The build job's own script and
  reading the built commit: that a result cannot be read is one of the ways a deploy fails.
- Concurrent start requests that both pass the check before either creates its job: a start is one step.
- JSON annotations of a database are the values they encode; parameters given at its creation are not
  recorded by the code and so not modelled. The API server may reject an update: nothing then changes.
- PublishDomain.App.DomainsOf: every path of the Ingress leads to a Service; the code also reads the
  Service of a path that leads to another resource, where there is none.
- Publishing: the Ingress is read twice by the code and once here, no one changing it in between. HTTPS
  flags only decide whether a certificate is asked for, and asking is not modelled.
- ComposeDeploy.ReconcileAppIngress: its rules are the list of its valid domains; how they are grouped by
  host is in `PublishDomain`.
- Compose: reading the file into requests (`planComposeService`), config files, registry and autoscaler,
  which no compose request has, and the namespace itself, which is not removed by a roll-back.
- ComposeDeploy.DeployCompose: other users of the namespace are not modelled while a deploy and
  its clean-up run.
- RepoUploads.Uploader.SendWaitingLocalRepos: which pods wait for a repository is any choice; the
  transfer itself (`sendLocalRepo`) is its outcome, retry or not. The API server's listing is what is
  live when it answers.
- PinToNode.PinnedAccepts: how a requirement on labels is read is any function; one on the node's name is
  read as Kubernetes documents it, with exactly one value.
- PinToNode.BuildRun: the job around the pod (its labels, owner and time to live), and how limits are
  parsed, which is any function.
- Manifests: reading YAML, and what the applier does with a document afterwards. The walk asks a fixed
  function which secrets exist, which `SecretExists` is from its first answer on.
- HTTP controllers, sessions, Helm, the Kubernetes client, the mesh, resource pages and summaries: only
  easy members.
