# PLC_Project in Dafny

A model of the compiler pipeline of PLC_Project, written in Java, with proofs about it. The pipeline is the course language's lexer, parser, analyzer, interpreter and Java code generator. The homework's five regular expressions are modelled too.

The Java classes work by changing state: a character stream, a token stream, a scope and a print writer. Each becomes a Dafny class with the same fields and methods. Each method is proved against a pure function in its own module, which says what the method computes: the token it emits and where it leaves the stream, the AST node it builds and the index after it, the new scope chain, or the text written. The lemmas state what the source promises about those functions.

| file | module | models |
|---|---|---|
| outcomes.dfy | Outcomes | `Option` and `Result`, which stand for Java's `null`, `Optional` and exceptions |
| tokens.dfy | Tokens | `Token`: a kind, its literal text and its index in the input |
| environment.dfy | Environment | the type catalog: each type's name and JVM name, and variables and function signatures as the analyzer records them |
| ast.dfy | Ast | the tree: source, fields, methods, statements, expressions and literals, with the analyzer's annotations |
| numbers.dfy | Numbers | what the interpreter and parser use of `BigInteger` and `BigDecimal`: truncating division, exact add, subtract, multiply and compare, `divide(.., 1, HALF_EVEN)`, and the decimal text of an integer |
| lexing.dfy, lexing_properties.dfy | Lexing, LexingProperties | `Lexer` and its `CharStream` (`Lexer.java`) |
| escapes.dfy | Escapes | the parser's escape decoding (`Parser.java:510-531`) |
| parsing.dfy, parsing_properties.dfy | Parsing, ParsingProperties | `Parser` and its `TokenStream` (`Parser.java`) |
| analysis.dfy, analysis_properties.dfy | Analysis, AnalysisProperties | `Analyzer` (`Analyzer.java`): the visitors it implements |
| interpretation.dfy, interpretation_properties.dfy | Interpretation, InterpretationProperties | `Interpreter` (`Interpreter.java`) |
| generation.dfy, generation_properties.dfy | Generation, GenerationProperties | `Generator` (`Generator.java`) |
| regex.dfy | Regex | the `EMAIL`, `EVEN_STRINGS`, `INTEGER_LIST`, `NUMBER` and `STRING` patterns (`Regex.java`), as recognisers proved equal to each pattern's language |

How the model is built:

- **Exceptions are results.** Each stage returns `Ok` or `Err`, never a partial value:
  - the lexer's `ParseException` carries its index;
  - the parser's `ParseException` carries the index that `parseIndex` computes. Where Java would raise `IndexOutOfBoundsException` from `tokens.get(-1)` instead, the model says so;
  - the analyzer and interpreter split errors into `RuntimeException`, `UnsupportedOperationException` (the TODO visitors) and, for the analyzer, `NullPointerException`.
- **The parser's endless loops are results.** Two of the parser's loops never end on some inputs, because they make no progress:
  - the parameter list of `parseMethod` (`Parser.java:130-137`) on an identifier;
  - the outer loop of `parseSource` (`Parser.java:52-69`) on an identifier other than `LET` or `DEF`.

  The model recognises these exact situations and returns `Err(Diverges)` for them.
- **`while` carries fuel.** An interpreted `while` may run forever, so the model bounds the iterations of each loop by a `fuel` parameter and returns `Err(OutOfFuel)` past it. The `...Fuel` lemmas prove that more fuel never changes a run that did not run out.
- **The analyzer's `requireAssignable` is a parameter.** The source leaves it as a stub that always throws. The `Analyzer` class takes it as a parameter of type `Requirement`, and `Analysis.Stub` is the source's stub.
- **Numbers are exact.** Integers are `BigInteger`; decimals are `BigDecimal`, which the model holds as an unscaled integer and a scale. The analyzer's test that a decimal's double value is infinite uses the exact threshold `(2^54 - 1) * 2^970`. At or above it, `Double.parseDouble` rounds to infinity.
- **Generator preconditions.** The generator reads the annotations the analyzer records, and the source throws a `NullPointerException` without them. Its functions therefore require `StmtReady`, `MethodReady`, `FieldReady` and `SourceReady`: every declaration carries a resolved variable, and every method a signature. The analyzer's `Method` visitor, which would record those, is a TODO in the source.
- **Scope, Environment, Ast and Token are not part of this model.** The files `Scope.java`, `Environment.java`, `Ast.java` and `Token.java` are not part of this model. The modules above are minimal counterparts with the behaviour the core relies on. One assumption comes from the course's `Scope`: `defineVariable` and `defineFunction` fail when the current frame already binds the name (or the name and arity).

Where the specification of the repository and the code disagree, the model follows the code. The exception is the three defects under "## Findings": there the pipeline runs the corrected definition, the definition as written is modelled beside it, and "## Left out" names each member that therefore differs from the source. The disagreements the model follows the code on are these:

- The analyzer's `Source`, `Field`, `Method`, expression-statement, assignment, `if`, `for`, `return`, group, access and function visitors are TODO stubs. The model does not check them statically, so, for example, there is no check for a `main` entry point. Each of them is `Err(Unsupported)`.
- The interpreter's assignment, `if` and function-call visitors are TODO stubs too, and give `Err(Unsupported)`.
- Integer division by zero. The explicit test `equals(0)` compares a `BigInteger` with an `Integer` and never fires, so `BigInteger.divide` raises `ArithmeticException` instead. Either way, the model fails with a runtime error.
- `+` with a string on one side. For `+`, the analyzer types the result as a string when either operand is one. The interpreter, however, concatenates only two strings, and fails when exactly one side is a string.
- Identifiers and `LET`. The identifier class `[A-za-z_]` also admits the six characters between `Z` and `a`. A `LET` statement takes no `: type` annotation.

## Model

| member | source | states |
|---|---|---|
| Environment.GetType | src/main/java/plc/project/Analyzer.java:60-62 | a type found by name carries that name |
| Environment.GetTypeOfName | src/main/java/plc/project/Analyzer.java:60-62 | every catalog type is found under its own name, so the names are distinct |
| Lexing.CharStream.constructor | src/main/java/plc/project/Lexer.java:223-225 | the stream holds the input with index and length 0 |
| Lexing.CharStream.Advance | src/main/java/plc/project/Lexer.java:235-238 | index and length each grow by one |
| Lexing.CharStream.Skip | src/main/java/plc/project/Lexer.java:240-242 | length becomes 0 and index is unchanged |
| Lexing.CharStream.Emit | src/main/java/plc/project/Lexer.java:244-248 | the token has the given kind, starts at index - length and spells input[index - length..index); length is reset to 0 and index unchanged |
| Lexing.Lexer.constructor | src/main/java/plc/project/Lexer.java:26-28 | the lexer reads a fresh stream over the input, at index 0 with length 0 |
| Lexing.PeeksBound | src/main/java/plc/project/Lexer.java:182-189 | a successful peek means every pattern's character lies inside the input and matches its pattern |
| Lexing.PeeksOne | src/main/java/plc/project/Lexer.java:182-189 | peek of one pattern holds iff a character exists at the index and matches |
| Lexing.PeeksTwo | src/main/java/plc/project/Lexer.java:182-189 | peek of two patterns holds iff two characters exist and each matches its pattern |
| Lexing.Lexer.Peek | src/main/java/plc/project/Lexer.java:182-189 | the result is true iff every pattern matches the character at its offset, false once an offset lies past the input; the stream is not modified |
| Lexing.Lexer.Match | src/main/java/plc/project/Lexer.java:198-206 | on success index and length grow by exactly the number of patterns; on failure both are unchanged |
| Lexing.Lexer.MatchRun | src/main/java/plc/project/Lexer.java:78-79 | the index stops at the end of the run of characters of the class, and length grows by the same amount |
| Lexing.Run | src/main/java/plc/project/Lexer.java:78-79 | the run's end lies between its start and the end of the input |
| Lexing.RunStep | src/main/java/plc/project/Lexer.java:78-79 | a character of the class extends the run by one; any other character ends it where it is |
| Lexing.ScanIdentifier | src/main/java/plc/project/Lexer.java:76-83 | a successful identifier ends past its first character and inside the input |
| Lexing.Lexer.LexIdentifier | src/main/java/plc/project/Lexer.java:76-83 | the result is the token ScanIdentifier describes, or the exception at the stream index when the first character is not one of [A-za-z_] |
| Lexing.ScanNumber | src/main/java/plc/project/Lexer.java:85-100 | a number that starts with a digit, or a sign and a digit, consumes at least one character and stays inside the input |
| Lexing.NumberLoop | src/main/java/plc/project/Lexer.java:93-99 | the digit loop at a digit consumes at least that digit |
| Lexing.AfterDigit | src/main/java/plc/project/Lexer.java:94-98 | after a digit the loop never moves backwards and stays inside the input |
| Lexing.NumberLoopStep | src/main/java/plc/project/Lexer.java:93-99 | the loop continues after a digit and stops as INTEGER at anything else |
| Lexing.AfterDigitStep | src/main/java/plc/project/Lexer.java:94-98 | a '.' followed by a digit makes the token DECIMAL and ends it after the fraction's digits; otherwise the loop goes on |
| Lexing.Lexer.LexNumber | src/main/java/plc/project/Lexer.java:85-100 | the token is the one ScanNumber describes, with its kind, and the stream is left after it with length 0 |
| Lexing.Lexer.LexDigits | src/main/java/plc/project/Lexer.java:93-99 | the kind and the final index are those of NumberLoop, and the token's start is unchanged |
| Lexing.ScanEscape | src/main/java/plc/project/Lexer.java:159-164 | a valid escape ends past the backslash inside the input |
| Lexing.Lexer.LexEscape | src/main/java/plc/project/Lexer.java:159-164 | succeeds exactly when ScanEscape does, with the same exception index when it fails, and then stands at ScanEscape's end |
| Lexing.ScanCharacter | src/main/java/plc/project/Lexer.java:120-140 | a successful character literal ends past its opening quote inside the input |
| Lexing.Lexer.LexCharacter | src/main/java/plc/project/Lexer.java:120-140 | the result is the CHARACTER token ScanCharacter describes, or its exception |
| Lexing.ScanString | src/main/java/plc/project/Lexer.java:142-157 | a successful string literal ends past its opening quote inside the input |
| Lexing.StringLoop | src/main/java/plc/project/Lexer.java:144-156 | the string loop that succeeds ends past where it started |
| Lexing.AfterStringChar | src/main/java/plc/project/Lexer.java:145-149 | after a character the loop stays inside the input |
| Lexing.StringLoopStep | src/main/java/plc/project/Lexer.java:144-150 | any character but a quote, CR or LF continues the loop; anything else goes to the closing-quote test |
| Lexing.AfterStringCharStep | src/main/java/plc/project/Lexer.java:145-149 | a backslash must be followed by an escape letter, else the exception is at the index after the backslash |
| Lexing.StringClose | src/main/java/plc/project/Lexer.java:151-156 | the literal closes exactly one past a closing quote |
| Lexing.Lexer.LexString | src/main/java/plc/project/Lexer.java:142-157 | the result is the STRING token ScanString describes, or its exception |
| Lexing.Lexer.LexStringBody | src/main/java/plc/project/Lexer.java:144-150 | the loop fails exactly where StringLoop throws, and otherwise stops where the closing-quote test decides |
| Lexing.OperatorEnd | src/main/java/plc/project/Lexer.java:166-173 | an operator consumes at least one character and stays inside the input |
| Lexing.Lexer.LexOperator | src/main/java/plc/project/Lexer.java:166-173 | the OPERATOR token ends where OperatorEnd says |
| Lexing.ScanToken | src/main/java/plc/project/Lexer.java:57-73 | a successful token ends past its first character inside the input |
| Lexing.Tagged | src/main/java/plc/project/Lexer.java:57-73 | tagging keeps success and failure and pairs the kind with the end |
| Lexing.Lexer.LexToken | src/main/java/plc/project/Lexer.java:57-73 | the token is the one ScanToken describes for the next character, which lexToken reads without consuming |
| Lexing.Lexer.Lex | src/main/java/plc/project/Lexer.java:34-47 | the result is LexFrom from the current index, and a successful lex leaves the index at the input's length plus one |
| Lexing.LexFromToken | src/main/java/plc/project/Lexer.java:38-39 | at a character that is not whitespace, lexing scans one token and continues after it, or fails exactly as the token scan fails |
| Lexing.LexFromWhitespace | src/main/java/plc/project/Lexer.java:38-44 | at whitespace, lexing skips one character and continues |
| Lexing.PrependStep | src/main/java/plc/project/Lexer.java:35-46 | prepending tokens in two steps is prepending them once |
| Lexing.Lex | src/main/java/plc/project/Lexer.java:26-47 | a fresh lexer over the input lexes it from position 0 with LexFrom |
| LexingProperties.RunAll | src/main/java/plc/project/Lexer.java:78-79 | every character the run consumed belongs to the class, and the one after it does not |
| LexingProperties.DigitsExtend | src/main/java/plc/project/Lexer.java:93-96 | a digit extends a run of digits |
| LexingProperties.AfterDigitShape | src/main/java/plc/project/Lexer.java:93-99 | what the loop reads after digits is digits, or digits, '.', digits; it stops before any further digit; an INTEGER is never followed by a '.' and a digit |
| LexingProperties.NumberLoopShape | src/main/java/plc/project/Lexer.java:93-99 | the same shape from the first digit |
| LexingProperties.ScanNumberShape | src/main/java/plc/project/Lexer.java:85-100 | a number token is an optional sign and digits, with a fraction exactly when it is DECIMAL; no digit follows it, and an INTEGER is not followed by '.' and a digit, so a '.' without a digit is never consumed |
| LexingProperties.ScanCharacterShape | src/main/java/plc/project/Lexer.java:120-140 | a character token is a quote, one character other than quote, CR, LF and backslash or a backslash and an escape letter, and a quote |
| LexingProperties.StringLoopSound | src/main/java/plc/project/Lexer.java:144-156 | what the string loop accepts ends with a quote after a valid string body |
| LexingProperties.StringLoopComplete | src/main/java/plc/project/Lexer.java:144-156 | every valid body followed by a quote is accepted, ending after the quote |
| LexingProperties.ScanStringIff | src/main/java/plc/project/Lexer.java:142-157 | lexString succeeds with end e exactly when the text up to e is a quoted valid body, so a newline or the end of input before the closing quote fails |
| LexingProperties.ScanStringSound | src/main/java/plc/project/Lexer.java:142-157 | a string lexString accepts is a quote, a valid body and a closing quote |
| LexingProperties.ScanStringComplete | src/main/java/plc/project/Lexer.java:142-157 | lexString accepts every quoted valid body, ending just after its closing quote |
| LexingProperties.StringBodyNoNewline | src/main/java/plc/project/Lexer.java:144 | no string literal contains CR or LF |
| LexingProperties.ScanTokenShape | src/main/java/plc/project/Lexer.java:57-73 | every token lexToken makes has the shape of its kind; a backslash never starts a token |
| LexingProperties.LexFromLayout | src/main/java/plc/project/Lexer.java:34-47 | the tokens lie in input order, do not overlap, have strictly increasing starts, each spells the input at its start, only whitespace lies between them, and each is well formed |
| LexingProperties.LexLayout | src/main/java/plc/project/Lexer.java:34-47 | the same layout for a whole input |
| Escapes.ReplaceAll | src/main/java/plc/project/Parser.java:525-531 | String.replace never lengthens the text and changes nothing when the first character of the pair does not occur |
| Escapes.Unescape | src/main/java/plc/project/Parser.java:524-532 | decoding never lengthens the text |
| Escapes.EscapeChar | src/main/java/plc/project/Parser.java:525-531 | the escaped form of a character has one or two characters |
| Escapes.UnescapeEscape | src/main/java/plc/project/Parser.java:524-532 | decoding the escaped form of any text gives the text back, whatever follows it |
| Escapes.UnescapeEscapeStep | src/main/java/plc/project/Parser.java:524-532 | the inductive step of the round trip |
| Escapes.UnescapeFirst | src/main/java/plc/project/Parser.java:524-532 | decoding an escaped text begins with decoding its first character's escape |
| Escapes.EscapeFirst | src/main/java/plc/project/Parser.java:524-532 | escaping a text is escaping its first character, then the rest |
| Escapes.UnescapeChar | src/main/java/plc/project/Parser.java:524-532 | decoding one escaped character gives that character, then the decoding of what follows |
| Escapes.ReplaceChainMisreadsBackslash | src/main/java/plc/project/Parser.java:525-531 | the literal with an escaped backslash before n decodes to a backslash and n, but the replace chain turns it into a backslash and a line feed |
| Parsing.PeeksBound | src/main/java/plc/project/Parser.java:596-616 | a successful peek means each pattern's token exists and fits the pattern |
| Parsing.ErrorAt | src/main/java/plc/project/Parser.java:29-36 | the error for a position is a ParseException or the IndexOutOfBounds that tokens.get(-1) raises |
| Parsing.MissingIndex | src/main/java/plc/project/Parser.java:29-36 | at the end of the stream the index is the last token's index plus its literal's length; elsewhere it is the current token's index |
| Parsing.TokenStream.constructor | src/main/java/plc/project/Parser.java:636-638 | the stream holds the tokens at index 0 |
| Parsing.TokenStream.Advance | src/main/java/plc/project/Parser.java:657-659 | the index grows by one |
| Parsing.Parser.constructor | src/main/java/plc/project/Parser.java:39-41 | a fresh stream over the tokens at index 0 |
| Parsing.Parser.Peek | src/main/java/plc/project/Parser.java:596-616 | true iff each pattern fits the token at its offset, false once an offset lies past the last token; the stream is not modified |
| Parsing.Parser.Match | src/main/java/plc/project/Parser.java:622-629 | on success the index grows by exactly the number of patterns; on failure it is unchanged |
| Parsing.Parser.PeekLit | src/main/java/plc/project/Parser.java:596-616 | peek of one literal |
| Parsing.Parser.MatchLit | src/main/java/plc/project/Parser.java:622-629 | match of one literal advances by one exactly when it fits |
| Parsing.Parser.PeekKind | src/main/java/plc/project/Parser.java:596-616 | peek of one token type |
| Parsing.Parser.MatchKind | src/main/java/plc/project/Parser.java:622-629 | match of one token type advances by one exactly when it fits |
| Parsing.Parser.ParseIndex | src/main/java/plc/project/Parser.java:29-36 | the index ErrorAt gives, or the exception parseIndex raises |
| Parsing.Parser.MissingError | src/main/java/plc/project/Parser.java:176-182 | the exception for a missing token, chosen by whether a token is present |
| Parsing.Expression | src/main/java/plc/project/Parser.java:351-353 | a parsed expression consumes at least one token |
| Parsing.Level | src/main/java/plc/project/Parser.java:358-445 | each rule of the operator ladder consumes at least one token on success |
| Parsing.Runs | src/main/java/plc/project/Parser.java:358-445 | the operator loops of a rule never move backwards |
| Parsing.Secondary | src/main/java/plc/project/Parser.java:450-480 | a secondary expression consumes at least one token |
| Parsing.Chain | src/main/java/plc/project/Parser.java:453-477 | the '.' loop never moves backwards |
| Parsing.ChainCallStep | src/main/java/plc/project/Parser.java:453-472 | a `.name(` round of the chain adds one call step carrying the number of Function nodes the argument loop made, and continues after the arguments with their shared list |
| Parsing.ChainFieldStep | src/main/java/plc/project/Parser.java:453-475 | a `.name` round not followed by ( adds one field access step and continues after the name |
| Parsing.CallArgs | src/main/java/plc/project/Parser.java:458-471 | a receiver call's argument loop consumes at least its ')' |
| Parsing.Primary | src/main/java/plc/project/Parser.java:488-583 | a primary consumes at least one token |
| Parsing.GroupOrName | src/main/java/plc/project/Parser.java:537-582 | a group, a variable or a function call consumes at least one token |
| Parsing.Arguments | src/main/java/plc/project/Parser.java:556-568 | a call's argument list consumes at least its ')' and keeps the arguments already read |
| Parsing.Statement | src/main/java/plc/project/Parser.java:157-198 | a statement consumes at least one token |
| Parsing.LetParts | src/main/java/plc/project/Parser.java:81-104 | `LET identifier ('=' expression)? ';'` consumes at least one token |
| Parsing.Declaration | src/main/java/plc/project/Parser.java:205-226 | a declaration consumes at least one token |
| Parsing.IfStatement | src/main/java/plc/project/Parser.java:233-264 | an if consumes at least one token |
| Parsing.IfRest | src/main/java/plc/project/Parser.java:239-263 | after the condition, the DO, the branches and the END consume at least one token |
| Parsing.ThenLoop | src/main/java/plc/project/Parser.java:246-260 | the then loop stops at an END it does not consume |
| Parsing.ElseLoop | src/main/java/plc/project/Parser.java:250-255 | the else loop stops at an END it does not consume |
| Parsing.Block | src/main/java/plc/project/Parser.java:143-146 | a statement list stops at an END it does not consume |
| Parsing.ForStatement | src/main/java/plc/project/Parser.java:271-301 | a for consumes at least one token |
| Parsing.WhileStatement | src/main/java/plc/project/Parser.java:308-329 | a while consumes at least one token |
| Parsing.DoBlock | src/main/java/plc/project/Parser.java:287-298 | `DO statement* END` consumes at least one token |
| Parsing.ReturnStatement | src/main/java/plc/project/Parser.java:336-346 | a return consumes at least one token |
| Parsing.FieldAt | src/main/java/plc/project/Parser.java:81-104 | a field consumes at least one token |
| Parsing.Commas | src/main/java/plc/project/Parser.java:133-135 | the comma loop consumes exactly a run of ',' tokens and stops before the first other token |
| Parsing.Parameters | src/main/java/plc/project/Parser.java:130-137 | a parameter list that ends consumes at least its ')' |
| Parsing.MethodAt | src/main/java/plc/project/Parser.java:110-150 | a method consumes at least one token |
| Parsing.MethodRest | src/main/java/plc/project/Parser.java:130-149 | the parameters, DO block and END after the ( of a method consume at least one token |
| Parsing.FieldLoop | src/main/java/plc/project/Parser.java:54-59 | the field loop stops at no LET; it stops at the end, at a DEF, or where it started; at a LET it makes progress |
| Parsing.MethodLoop | src/main/java/plc/project/Parser.java:62-67 | the method loop stops at no DEF, at the end or where it started; at a DEF it makes progress |
| Parsing.Parser.ParseExpression | src/main/java/plc/project/Parser.java:351-353 | the expression and the index it leaves are those of Expression |
| Parsing.Parser.ParseLevel | src/main/java/plc/project/Parser.java:358-445 | the expression and index are those of Level, for each rule of the ladder |
| Parsing.Parser.ParseOperatorLoop | src/main/java/plc/project/Parser.java:358-445 | one operator loop of a rule: on success the later operator loops go on from where it stopped with the folded expression, on failure the rule fails with the same error |
| Parsing.RunsStep | src/main/java/plc/project/Parser.java:358-445 | a round of an operator loop either moves on to the next operator when the token is not this one, fails as the right operand fails, or folds the right operand into a left-leaning Binary node |
| Parsing.Parser.ParseSecondary | src/main/java/plc/project/Parser.java:450-480 | the expression and index are those of Secondary |
| Parsing.Parser.ParseChain | src/main/java/plc/project/Parser.java:453-477 | the steps, the shared argument list and the end index are those of Chain from the current token, and a failure is the failure of Chain |
| Parsing.Parser.ParseCallArguments | src/main/java/plc/project/Parser.java:458-471 | the argument list, the number of Function nodes and the index are those of CallArgs |
| Parsing.Parser.ParsePrimary | src/main/java/plc/project/Parser.java:488-583 | the expression and index are those of Primary |
| Parsing.Parser.ParseGroupOrName | src/main/java/plc/project/Parser.java:537-582 | the expression and index are those of GroupOrName |
| Parsing.Parser.ParseArguments | src/main/java/plc/project/Parser.java:556-568 | the arguments and index are those of Arguments |
| Parsing.Parser.ParseStatement | src/main/java/plc/project/Parser.java:157-198 | the statement and index are those of Statement |
| Parsing.Parser.ParseDeclaration | src/main/java/plc/project/Parser.java:205-226 | the statement and index are those of Declaration |
| Parsing.Parser.ParseLet | src/main/java/plc/project/Parser.java:81-104 | the name, the value and the index are those of LetParts |
| Parsing.Parser.ParseIf | src/main/java/plc/project/Parser.java:233-264 | the statement and index are those of IfStatement |
| Parsing.Parser.ParseIfRest | src/main/java/plc/project/Parser.java:239-263 | the statement and index are those of IfRest |
| Parsing.Parser.ParseThens | src/main/java/plc/project/Parser.java:246-260 | the then and else statements and the index are those of ThenLoop |
| Parsing.Parser.ParseElse | src/main/java/plc/project/Parser.java:250-255 | the else statements and index are those of ElseLoop |
| Parsing.Parser.ParseBlock | src/main/java/plc/project/Parser.java:143-146 | the statements and index are those of Block |
| Parsing.Parser.ParseFor | src/main/java/plc/project/Parser.java:271-301 | the statement and index are those of ForStatement |
| Parsing.Parser.ParseWhile | src/main/java/plc/project/Parser.java:308-329 | the statement and index are those of WhileStatement |
| Parsing.Parser.ParseDoBlock | src/main/java/plc/project/Parser.java:287-298 | the statements and index are those of DoBlock |
| Parsing.Parser.ParseReturn | src/main/java/plc/project/Parser.java:336-346 | the statement and index are those of ReturnStatement |
| Parsing.Parser.ParseField | src/main/java/plc/project/Parser.java:81-104 | the field and index are those of FieldAt |
| Parsing.Parser.ParseMethod | src/main/java/plc/project/Parser.java:110-150 | the method and index are those of MethodAt |
| Parsing.Parser.ParseMethodRest | src/main/java/plc/project/Parser.java:130-149 | the method and index are those of MethodRest |
| Parsing.Parser.ParseParameters | src/main/java/plc/project/Parser.java:130-137 | the parameters and index are those of Parameters, including Diverges for the loop that never ends |
| Parsing.ParametersStep | src/main/java/plc/project/Parser.java:130-137 | a round of the parameter loop at a token other than ) that matches no comma never ends (Diverges); otherwise it adds the previous literal and one literal per comma and continues after the commas |
| Parsing.Parser.ParseCommas | src/main/java/plc/project/Parser.java:133-135 | the literals read and the new index are those of Commas |
| Parsing.Parser.ParseFields | src/main/java/plc/project/Parser.java:54-59 | the fields and index are those of FieldLoop |
| Parsing.Parser.ParseMethods | src/main/java/plc/project/Parser.java:62-67 | the methods and index are those of MethodLoop |
| Parsing.Parser.ParseSource | src/main/java/plc/project/Parser.java:46-75 | the source or the error is that of SourceLoop |
| Parsing.PrefixedStep | src/main/java/plc/project/Parser.java:130-137 | prefixing a list result in two steps is prefixing it once |
| Parsing.ChainFromStep | src/main/java/plc/project/Parser.java:453-477 | extending a chain in two steps is extending it once |
| Parsing.Parse | src/main/java/plc/project/Parser.java:39-46 | a fresh parser over the tokens parses Source |
| ParsingProperties.EmptySource | src/main/java/plc/project/Parser.java:46-75 | an empty token list is a source with no fields and no methods |
| ParsingProperties.LeftoverToken | src/main/java/plc/project/Parser.java:71-74 | a token that is not an identifier where a field or method could start fails at that token's index |
| ParsingProperties.LetAfterMethod | src/main/java/plc/project/Parser.java:61-65 | a LET right after a parsed method makes the method loop throw a ParseException at the LET, and the source fails with it |
| ParsingProperties.NoFieldAfterMethod | src/main/java/plc/project/Parser.java:61-69 | from a DEF onwards no field is added and at least one method is, so a LET after a DEF is never a field |
| ParsingProperties.MethodLoopGrows | src/main/java/plc/project/Parser.java:62-67 | the method loop keeps the methods it had, in order, and adds at least one at a DEF |
| ParsingProperties.LetMissingName | src/main/java/plc/project/Parser.java:85-87 | a LET without an identifier fails at the next token, or with IndexOutOfBounds at the end of the list |
| ParsingProperties.LetShape | src/main/java/plc/project/Parser.java:81-104 | a LET that parses has an identifier, a value exactly when '=' follows it, and ends after a ';' |
| ParsingProperties.LetMissingSemicolon | src/main/java/plc/project/Parser.java:97-99 | a LET whose name or value is not followed by ';' fails at the token there |
| ParsingProperties.ExpressionStatementShape | src/main/java/plc/project/Parser.java:170-196 | a non-keyword statement is `expr ;` (an Expression statement) or `expr = expr ;` (an Assignment); it fails without the ';' |
| ParsingProperties.OpTier | src/main/java/plc/project/Parser.java:358-445 | every operator gets a level of at most 4, and a level below 4 is the rule whose operator list holds it |
| ParsingProperties.OpTierOf | src/main/java/plc/project/Parser.java:358-445 | every operator of a rule's list has that rule's level |
| ParsingProperties.LevelLadder | src/main/java/plc/project/Parser.java:358-445 | what a rule parses nests logical over equality over additive over multiplicative over secondary, and its top binds no looser than the rule |
| ParsingProperties.RunsLadder | src/main/java/plc/project/Parser.java:358-445 | the operator loops keep that nesting |
| ParsingProperties.SecondaryNotBinary | src/main/java/plc/project/Parser.java:450-480 | a secondary expression is never a Binary node |
| ParsingProperties.BuildNotBinary | src/main/java/plc/project/Parser.java:453-477 | a chain over a non-binary base is not binary |
| ParsingProperties.LeftAssociative | src/main/java/plc/project/Parser.java:432-445 | `a * b * c` parses as `(a * b) * c` |
| ParsingProperties.NameOperand | src/main/java/plc/project/Parser.java:553-573 | a name followed by neither ( nor . is a one-token Access, whichever rule of the ladder starts at it |
| ParsingProperties.KeywordLiterals | src/main/java/plc/project/Parser.java:489-494 | NIL is a null literal, TRUE and FALSE are Booleans |
| ParsingProperties.IntegerLiteralValue | src/main/java/plc/project/Parser.java:495-498 | an INTEGER token is the exact number its literal spells |
| ParsingProperties.StringLiteralValue | src/main/java/plc/project/Parser.java:523-534 | a STRING token whose body is the escaped form of x is the literal x, and a STRING token right after it is consumed too |
| ParsingProperties.QuotedText | src/main/java/plc/project/Parser.java:524-532 | decoding and unquoting the quoted escaped form of x gives x |
| ParsingProperties.NotKeyword | src/main/java/plc/project/Parser.java:489-494 | a quoted literal spells no keyword |
| ParsingProperties.CharacterLiteralValue | src/main/java/plc/project/Parser.java:503-520 | a CHARACTER token that quotes the escaped form of c is the character c |
| ParsingProperties.QuotedChar | src/main/java/plc/project/Parser.java:504-519 | decoding the quoted escaped form of c gives c at position 1 |
| ParsingProperties.NameLiterals | src/main/java/plc/project/Parser.java:553-573 | a name is an Access with no receiver, or with '(' after it a Function with no receiver |
| ParsingProperties.TrailingComma | src/main/java/plc/project/Parser.java:561-565 | an argument followed by ',' and ')' fails at the ')' |
| ParsingProperties.ParameterListEnds | src/main/java/plc/project/Parser.java:130-137 | `()` is the empty parameter list; any token other than ')' or ',' after the '(' never leaves the loop |
| ParsingProperties.ParametersAreDelimiters | src/main/java/plc/project/Parser.java:130-137 | the parameters recorded are the literals of '(' and ',' tokens |
| ParsingProperties.MethodParameters | src/main/java/plc/project/Parser.java:110-150 | a method that parses has only '(' and ',' as parameter names |
| Analysis.Pow2Add | src/main/java/plc/project/Analyzer.java:142-143 | powers of two multiply by adding exponents |
| Analysis.Halfway | src/main/java/plc/project/Analyzer.java:142-143 | the overflow threshold's form (2^(k+1) - 1) * 2^e is the midpoint of the largest k-bit significand at exponent e + 1 and 2^(k+1+e) |
| Analysis.LiteralType | src/main/java/plc/project/Analyzer.java:118-152 | a literal is typed NIL, BOOLEAN, CHARACTER, STRING, INTEGER or DECIMAL, and a failure is a RuntimeException |
| Analysis.Declare | src/main/java/plc/project/Analyzer.java:50-79 | a declaration changes only the current frame of the chain |
| Analysis.Check | src/main/java/plc/project/Analyzer.java:50-110 | a statement changes only the current frame of the chain |
| Analysis.CheckBody | src/main/java/plc/project/Analyzer.java:101-105 | the while body changes only the current frame |
| Analysis.Analyzer.constructor | src/main/java/plc/project/Analyzer.java:20-23 | the scope is a new frame under the parent that binds print/1 to System.out.println |
| Analysis.Analyzer.Visit | src/main/java/plc/project/Analyzer.java:50-110 | the annotated statement and new scope are those of Check; on failure the scope is unchanged |
| Analysis.Analyzer.VisitDeclaration | src/main/java/plc/project/Analyzer.java:50-79 | the annotated declaration and new scope are those of Declare; on failure the scope is unchanged |
| Analysis.Analyzer.VisitWhile | src/main/java/plc/project/Analyzer.java:97-110 | the result is that of Check, and the scope afterwards is the scope before, on success and on failure |
| AnalysisProperties.IntegerLiteralRange | src/main/java/plc/project/Analyzer.java:132-140 | an integer literal is typed INTEGER exactly when it lies in [-2147483648, 2147483647] |
| AnalysisProperties.LogicalTyping | src/main/java/plc/project/Analyzer.java:165-174 | AND and OR are BOOLEAN exactly when both operands are BOOLEAN |
| AnalysisProperties.ComparableJvmOrdered | src/main/java/plc/project/Analyzer.java:181-186 | the JVM names int, char, String, double and Comparable are exactly those of the ordered types |
| AnalysisProperties.ComparisonTyping | src/main/java/plc/project/Analyzer.java:175-197 | a comparison is BOOLEAN exactly when both sides have the same ordered type |
| AnalysisProperties.ArithmeticTyping | src/main/java/plc/project/Analyzer.java:198-226 | `-`, `*` and `/` type two INTEGERs as INTEGER and two DECIMALs as DECIMAL and fail on every other pair |
| AnalysisProperties.PlusTyping | src/main/java/plc/project/Analyzer.java:227-242 | `+` is STRING when either side is STRING; otherwise it keeps the type of two equal INTEGER or DECIMAL sides and fails on the rest |
| AnalysisProperties.KnownOperatorsTyped | src/main/java/plc/project/Analyzer.java:164-243 | every operator the parser builds gets a type or fails; any other operator is left untyped |
| AnalysisProperties.AnalyzeAnnotates | src/main/java/plc/project/Analyzer.java:118-246 | typing changes only the annotations, gives every node a type, and gives each Binary node its operator's type for its operands' types |
| AnalysisProperties.DeclarationNeedsTypeOrValue | src/main/java/plc/project/Analyzer.java:54-56 | a declaration with neither a type name nor a value fails |
| AnalysisProperties.DeclarationBinds | src/main/java/plc/project/Analyzer.java:58-76 | a declaration binds its name in the current frame to a variable with the declared type or else the value's type; every other name resolves as before |
| AnalysisProperties.StubRejectsInitializers | src/main/java/plc/project/Analyzer.java:50-79 | with the requireAssignable stub no declaration with a value succeeds |
| AnalysisProperties.WhileRestoresScope | src/main/java/plc/project/Analyzer.java:101-108 | a while restores the scope it found, so nothing declared in its body is visible afterwards |
| AnalysisProperties.StubRejectsWhile | src/main/java/plc/project/Analyzer.java:97-110 | with the requireAssignable stub no while succeeds |
| AnalysisProperties.BodyChecksEach | src/main/java/plc/project/Analyzer.java:103-105 | the while body keeps the statements it checked, in order, and adds one per remaining statement |
| Numbers.Pow10Add | src/main/java/plc/project/Interpreter.java:253 | powers of ten multiply by adding exponents |
| Numbers.TruncDivTruncates | src/main/java/plc/project/Interpreter.java:245 | BigInteger.divide's quotient rounds toward zero: q * b lies between 0 and a, within one divisor of a |
| Numbers.RoundHalfEven | src/main/java/plc/project/Interpreter.java:253 | the quotient is within half a divisor of n / d, and an exact tie gives an even quotient |
| Numbers.RoundedNatGap | src/main/java/plc/project/Interpreter.java:253 | rounding a natural quotient lands within half a divisor, ties to even |
| Numbers.RoundMagnitude | src/main/java/plc/project/Interpreter.java:253 | the signed quotient is rounded like its magnitude |
| Numbers.AlignValue | src/main/java/plc/project/Interpreter.java:234 | raising a decimal's scale keeps its value |
| Numbers.DecAdd | src/main/java/plc/project/Interpreter.java:234 | BigDecimal.add: the exact sum at the larger scale |
| Numbers.DecSub | src/main/java/plc/project/Interpreter.java:264 | BigDecimal.subtract: the exact difference at the larger scale |
| Numbers.DecMul | src/main/java/plc/project/Interpreter.java:275 | BigDecimal.multiply: the exact product at the sum of the scales |
| Numbers.DecCompare | src/main/java/plc/project/Interpreter.java:205 | BigDecimal.compareTo: the sign of the difference of the values, ignoring the scales |
| Numbers.DecDivide | src/main/java/plc/project/Interpreter.java:253 | divide(.., 1, HALF_EVEN): scale 1, the quotient rounded half-even at that scale |
| Numbers.DigitChar | src/main/java/plc/project/Generator.java:220 | a digit character with the given value |
| Numbers.NatToString | src/main/java/plc/project/Generator.java:220 | BigInteger.toString of a natural is one or more digits without a leading zero |
| Numbers.NatToStringValue | src/main/java/plc/project/Generator.java:220 | the digits denote the number |
| Numbers.ParseIntToString | src/main/java/plc/project/Parser.java:495-497 | new BigInteger reads back what toString writes |
| Numbers.IndexOf | src/main/java/plc/project/Parser.java:500 | the first occurrence of a character, or the length when there is none |
| Numbers.Zeros | src/main/java/plc/project/Parser.java:500 | n zero digits |
| Interpretation.Define | src/main/java/plc/project/Interpreter.java:51-54 | defineVariable succeeds exactly when the current frame does not bind the name, and then binds it there and changes nothing else |
| Interpretation.DefineFunction | src/main/java/plc/project/Interpreter.java:63 | defineFunction succeeds exactly when the current frame does not bind the name and arity, and then binds them there and changes nothing else |
| Interpretation.Declare | src/main/java/plc/project/Interpreter.java:95-104 | a declaration changes only the current frame |
| Interpretation.Exec | src/main/java/plc/project/Interpreter.java:88-159 | only a declaration changes the scope chain, and only its current frame; every other statement leaves the chain exactly as it found it |
| Interpretation.WhileLoop | src/main/java/plc/project/Interpreter.java:136-150 | the loop leaves the scope chain as it found it, also when the body fails or returns |
| Interpretation.ForLoop | src/main/java/plc/project/Interpreter.java:117-133 | the loop leaves the scope chain as it found it |
| Interpretation.Body | src/main/java/plc/project/Interpreter.java:141-143 | a loop body changes only its own frame |
| Interpretation.MethodBody | src/main/java/plc/project/Interpreter.java:71-73 | a method body changes only its own frame |
| Interpretation.BindParameters | src/main/java/plc/project/Interpreter.java:66-70 | positional binding changes only the current frame |
| Interpretation.BindAsWritten | src/main/java/plc/project/Interpreter.java:66-70 | the as-written binding keeps the chain's length |
| Interpretation.Invocation | src/main/java/plc/project/Interpreter.java:63-82 | a call leaves the caller's scope chain exactly as it was |
| Interpretation.InvokeCallable | src/main/java/plc/project/Interpreter.java:60-85 | invoking print or a method leaves the scope chain as it was |
| Interpretation.FieldsFrom | src/main/java/plc/project/Interpreter.java:33-36 | binding the fields changes only the current frame |
| Interpretation.DefineMethod | src/main/java/plc/project/Interpreter.java:60-85 | binding a method changes only the current frame |
| Interpretation.MethodsFrom | src/main/java/plc/project/Interpreter.java:37-40 | binding the methods changes only the current frame |
| Interpretation.RunSource | src/main/java/plc/project/Interpreter.java:29-42 | running a source changes only the current frame |
| Interpretation.Interpreter.constructor | src/main/java/plc/project/Interpreter.java:16-22 | the scope is a new frame under the parent that binds print/1 |
| Interpretation.Interpreter.VisitSource | src/main/java/plc/project/Interpreter.java:29-42 | the result and new scope are those of RunSource |
| Interpretation.Interpreter.VisitField | src/main/java/plc/project/Interpreter.java:48-57 | the result and new scope are those of Declare for the field |
| Interpretation.Interpreter.VisitMethod | src/main/java/plc/project/Interpreter.java:60-85 | the result and new scope are those of DefineMethod |
| Interpretation.Interpreter.InvokeFunction | src/main/java/plc/project/Interpreter.java:41 | the result and scope are those of InvokeCallable |
| Interpretation.Interpreter.Invoke | src/main/java/plc/project/Interpreter.java:63-82 | the result and the scope are those of Invocation, so the frame pushed for the call is gone on every path |
| Interpretation.Interpreter.RunMethodBody | src/main/java/plc/project/Interpreter.java:71-78 | the signal and scope are those of MethodBody |
| Interpretation.Interpreter.Visit | src/main/java/plc/project/Interpreter.java:88-159 | the outcome and scope are those of Exec |
| Interpretation.Interpreter.VisitWhile | src/main/java/plc/project/Interpreter.java:136-150 | the outcome and scope are those of Exec for the while |
| Interpretation.Interpreter.VisitFor | src/main/java/plc/project/Interpreter.java:117-133 | the outcome and scope are those of Exec for the for |
| Interpretation.Interpreter.VisitBody | src/main/java/plc/project/Interpreter.java:141-143 | the outcome and scope are those of Body |
| InterpretationProperties.AndShortCircuit | src/main/java/plc/project/Interpreter.java:182-188 | AND with a false left operand is false whatever the right operand is, even one that would fail |
| InterpretationProperties.OrShortCircuit | src/main/java/plc/project/Interpreter.java:190-193 | OR with a true left operand is true whatever the right operand is |
| InterpretationProperties.LogicalOperators | src/main/java/plc/project/Interpreter.java:182-199 | on two Booleans AND and OR are conjunction and disjunction; a non-Boolean operand that is evaluated fails |
| InterpretationProperties.ComparisonSameClass | src/main/java/plc/project/Interpreter.java:201-296 | `<`, `<=`, `>`, `>=` succeed exactly on two values of one comparable class and then hold as compareTo's sign says |
| InterpretationProperties.OrderMeaning | src/main/java/plc/project/Interpreter.java:205 | compareTo is antisymmetric and agrees with the order of integers, characters, Booleans, decimal values and string equality |
| InterpretationProperties.StrOrderRange | src/main/java/plc/project/Interpreter.java:205 | String.compareTo's sign is -1, 0 or 1 |
| InterpretationProperties.StrOrderSwap | src/main/java/plc/project/Interpreter.java:205 | swapping two strings negates their order |
| InterpretationProperties.StrOrderZero | src/main/java/plc/project/Interpreter.java:205 | two strings are in order 0 exactly when they are equal |
| InterpretationProperties.StrOrderPrefix | src/main/java/plc/project/Interpreter.java:205 | a common prefix does not change the order |
| InterpretationProperties.StrOrderFirstDifference | src/main/java/plc/project/Interpreter.java:205 | the first differing character decides, and a proper prefix comes first |
| InterpretationProperties.ComparisonFlip | src/main/java/plc/project/Interpreter.java:201-296 | `a < b` is `b > a` and `a <= b` is `b >= a` |
| InterpretationProperties.DecimalEqualityKeepsScale | src/main/java/plc/project/Interpreter.java:219-223 | `==` is equals, so 1.0 and 1.00 differ while `<=` and `>=` both hold |
| InterpretationProperties.UnlistedOperatorsFail | src/main/java/plc/project/Interpreter.java:179-299 | `!=` and any operator without a case fail before either operand is evaluated |
| InterpretationProperties.PlusCases | src/main/java/plc/project/Interpreter.java:225-237 | `+` concatenates two strings, adds two integers or two decimals exactly, and fails on every other pair, including a string with a non-string |
| InterpretationProperties.ArithmeticCases | src/main/java/plc/project/Interpreter.java:258-278 | `-` and `*` are exact on two integers or two decimals and fail on every other pair |
| InterpretationProperties.ArithmeticLeftFirst | src/main/java/plc/project/Interpreter.java:239-278 | `-`, `*` and `/` with a left operand that is not a number fail without evaluating the right one |
| InterpretationProperties.IntegerDivision | src/main/java/plc/project/Interpreter.java:240-247 | integer `/` truncates and fails on a zero divisor |
| InterpretationProperties.DecimalDivision | src/main/java/plc/project/Interpreter.java:248-256 | decimal `/` has scale 1 and rounds half-even, fails on a zero divisor of any scale, and mixed kinds fail |
| InterpretationProperties.DecimalDivisionTies | src/main/java/plc/project/Interpreter.java:253 | 0.25 / 1 is 0.2 and 0.35 / 1 is 0.4 |
| InterpretationProperties.DefineBinds | src/main/java/plc/project/Interpreter.java:51-54 | a defined name resolves to its value and every other name as before |
| InterpretationProperties.DeclareBinds | src/main/java/plc/project/Interpreter.java:95-104 | a declaration succeeds exactly when its value evaluates and the frame does not bind the name; the name then holds the value, or NIL without one; other names are unchanged; a failed declaration changes nothing |
| InterpretationProperties.WhileCondition | src/main/java/plc/project/Interpreter.java:138 | a false condition does nothing and a non-Boolean condition fails |
| InterpretationProperties.LoopsDiscardDeclarations | src/main/java/plc/project/Interpreter.java:117-150 | after a while or a for every name resolves as before it |
| InterpretationProperties.ForNeedsIterable | src/main/java/plc/project/Interpreter.java:119 | a for over a non-iterable fails |
| InterpretationProperties.ExecFuel | src/main/java/plc/project/Interpreter.java:88-159 | more fuel does not change a run that did not run out |
| InterpretationProperties.WhileFuel | src/main/java/plc/project/Interpreter.java:136-150 | more fuel does not change a while loop that did not run out |
| InterpretationProperties.ForFuel | src/main/java/plc/project/Interpreter.java:117-133 | more fuel does not change a for loop that did not run out |
| InterpretationProperties.BodyFuel | src/main/java/plc/project/Interpreter.java:141-143 | more fuel does not change a loop body that did not run out |
| InterpretationProperties.MethodBodyFuel | src/main/java/plc/project/Interpreter.java:71-73 | more fuel does not change a method body that did not run out |
| InterpretationProperties.RunSourceFuel | src/main/java/plc/project/Interpreter.java:29-42 | more fuel does not change a source run that did not run out |
| InterpretationProperties.BindKeeps | src/main/java/plc/project/Interpreter.java:66-70 | the bindings after a name's own leave its lookup alone |
| InterpretationProperties.BindsPositionally | src/main/java/plc/project/Interpreter.java:66-70 | with distinct fresh names and one argument per name, each name is bound to the argument in its position |
| InterpretationProperties.InvokeFallsOff | src/main/java/plc/project/Interpreter.java:74 | a method whose body falls off its end yields NIL |
| InterpretationProperties.InvokeReturns | src/main/java/plc/project/Interpreter.java:71-78 | a `return e` yields e's value in the call's frame, and the rest of the body never runs |
| InterpretationProperties.InvokeSeesArgument | src/main/java/plc/project/Interpreter.java:63-82 | a call binds the parameter to its argument |
| InterpretationProperties.BindAsWrittenFails | src/main/java/plc/project/Interpreter.java:66-70 | the as-written binding fails for every call with two or more arguments |
| InterpretationProperties.TwoParametersAsWritten | src/main/java/plc/project/Interpreter.java:66-70 | binding a and b to 1 and 2 as written fails on the second definition of a |
| InterpretationProperties.TwoParametersPositional | src/main/java/plc/project/Interpreter.java:66-70 | binding them positionally gives a = 1 and b = 2 |
| InterpretationProperties.MissingMain | src/main/java/plc/project/Interpreter.java:41 | an empty source run in a scope without main/0 fails and leaves the scope as it was |
| InterpretationProperties.MainSeesFields | src/main/java/plc/project/Interpreter.java:29-57 | a source with one field x = lit whose main returns x yields lit, so fields are bound before main runs |
| Generation.Generator.constructor | src/main/java/plc/project/Generator.java:10-12 | the writer is empty and the level 0 |
| Generation.Generator.Print | src/main/java/plc/project/Generator.java:14-22 | the text is appended to the writer |
| Generation.Generator.PrintNewline | src/main/java/plc/project/Generator.java:24-29 | a line break and four spaces per level are appended, none for a level of zero or less |
| Generation.Generator.VisitExpr | src/main/java/plc/project/Generator.java:203-259 | the writer holds what WriteExpr says and the level is unchanged |
| Generation.Generator.VisitLiteral | src/main/java/plc/project/Generator.java:203-222 | the writer holds what WriteLiteral says |
| Generation.Generator.VisitDeclaration | src/main/java/plc/project/Generator.java:108-116 | the writer holds what WriteDeclaration says: the Java type, the name, ` = ` and the value when there is one, and ; |
| Generation.Generator.VisitStmt | src/main/java/plc/project/Generator.java:101-200 | the writer holds what WriteStmt says and the level is unchanged |
| Generation.Generator.VisitIf | src/main/java/plc/project/Generator.java:127-157 | the if is written as WriteStmt says and the level is restored |
| Generation.Generator.VisitFor | src/main/java/plc/project/Generator.java:160-175 | the for is written as WriteStmt says and the level is restored |
| Generation.Generator.VisitWhile | src/main/java/plc/project/Generator.java:178-193 | the while is written as WriteStmt says and the level is restored |
| Generation.Generator.VisitBody | src/main/java/plc/project/Generator.java:130-140 | a body is written one level deeper and the level is restored |
| Generation.Generator.VisitMethod | src/main/java/plc/project/Generator.java:74-98 | the method is written as WriteMethod says and the level is restored |
| Generation.Generator.VisitParameters | src/main/java/plc/project/Generator.java:77-82 | the parameters are written as WriteParameters says and the level is unchanged |
| Generation.Generator.VisitMethodBody | src/main/java/plc/project/Generator.java:85-95 | nothing for a method without statements, otherwise the statements one level deeper and a line break at the method level, as WriteMethodBody says; the level is restored |
| Generation.Generator.VisitField | src/main/java/plc/project/Generator.java:63-71 | the field is written as a declaration |
| Generation.Generator.VisitSource | src/main/java/plc/project/Generator.java:32-59 | the class is written as WriteSource says and the level is unchanged |
| Generation.Generator.VisitFieldBlock | src/main/java/plc/project/Generator.java:36-44 | nothing without fields, otherwise the fields one level deeper and a line break, as WriteFieldBlock says; the level is restored |
| Generation.Generator.VisitMethodBlock | src/main/java/plc/project/Generator.java:52-56 | the methods at one level deeper than the class, as WriteMethods says; the level is restored |
| Generation.Generator.PrintMainEntry | src/main/java/plc/project/Generator.java:45-51 | the Java entry point is written one level deeper and the level is restored |
| Generation.Generator.VisitFields | src/main/java/plc/project/Generator.java:38-41 | each field on its own line |
| Generation.Generator.VisitMethods | src/main/java/plc/project/Generator.java:52-56 | each method on its own line and followed by a line break |
| GenerationProperties.LiteralPrefix | src/main/java/plc/project/Generator.java:203-222 | a literal's text does not depend on what was written before it |
| GenerationProperties.ExprPrefix | src/main/java/plc/project/Generator.java:225-259 | an expression's text does not depend on what was written before it |
| GenerationProperties.DeclarationPrefix | src/main/java/plc/project/Generator.java:108-116 | nor does a declaration's |
| GenerationProperties.StmtPrefix | src/main/java/plc/project/Generator.java:101-200 | nor does a statement's |
| GenerationProperties.IfPrefix | src/main/java/plc/project/Generator.java:127-157 | nor does an if's |
| GenerationProperties.LoopPrefix | src/main/java/plc/project/Generator.java:160-193 | nor does a for's or a while's |
| GenerationProperties.BodyPrefix | src/main/java/plc/project/Generator.java:130-140 | nor does a body's |
| GenerationProperties.LinesPrefix | src/main/java/plc/project/Generator.java:133-138 | nor does a body's statement loop |
| GenerationProperties.LinePrefix | src/main/java/plc/project/Generator.java:134-137 | nor does one line of a body |
| GenerationProperties.StmtAppends | src/main/java/plc/project/Generator.java:101-200 | a statement appends its own text |
| GenerationProperties.BodyAppends | src/main/java/plc/project/Generator.java:130-140 | a body appends its own text |
| GenerationProperties.LinesAppends | src/main/java/plc/project/Generator.java:133-138 | a statement loop appends its own text |
| GenerationProperties.ExprAppends | src/main/java/plc/project/Generator.java:225-259 | an expression appends its own text |
| GenerationProperties.OperatorSpelling | src/main/java/plc/project/Generator.java:232-247 | a Binary is left, a space, the operator, a space, right; AND is `&&`, OR is the double bar of Java, every other operator as it is |
| GenerationProperties.GroupAndAccess | src/main/java/plc/project/Generator.java:225-259 | a group is its expression in parentheses; Access and Function write nothing |
| GenerationProperties.NilLiteralAsWritten | src/main/java/plc/project/Generator.java:205-209 | the NIL literal raises in the visitor as written and is `null` in the corrected one; the two agree on every other literal |
| GenerationProperties.LiteralText | src/main/java/plc/project/Generator.java:210-221 | a string is quoted with `"`, a character with `'`, an integer is its digits and reads back as itself, a Boolean is true or false |
| GenerationProperties.SimpleStatements | src/main/java/plc/project/Generator.java:101-200 | `e;`, `r = v;` and `return e;` |
| GenerationProperties.OnNewLine | src/main/java/plc/project/Generator.java:134-137 | a statement after a line break is the line break and the statement's text |
| GenerationProperties.LinesJoined | src/main/java/plc/project/Generator.java:133-138 | from the second statement on, the loop writes each statement after a line break |
| GenerationProperties.BodyLayout | src/main/java/plc/project/Generator.java:130-140 | an empty body writes nothing; a non-empty one writes each statement on its own line one level deeper, then a line break back |
| GenerationProperties.EmptyBodies | src/main/java/plc/project/Generator.java:127-193 | a while, a for or an if with an empty body prints `{` and `}` together with no line break |
| GenerationProperties.SameLines | src/main/java/plc/project/Generator.java:133-138 | two statements with the same list write the same lines |
| GenerationProperties.ElseOnlyWhenPresent | src/main/java/plc/project/Generator.java:141-155 | the then-branch is printed the same whatever the else-branch holds, and ` else {...}` follows exactly when the else list is non-empty |
| GenerationProperties.ParameterDecls | src/main/java/plc/project/Generator.java:77-82 | one declaration per parameter |
| GenerationProperties.ParametersPrefix | src/main/java/plc/project/Generator.java:77-82 | the parameter list's text does not depend on what was written before it |
| GenerationProperties.ParametersJoined | src/main/java/plc/project/Generator.java:77-82 | the parameter list is the declarations separated by `, ` with no trailing comma |
| GenerationProperties.MethodLinesPrefix | src/main/java/plc/project/Generator.java:88-93 | the method's statement loop text does not depend on what was written before it |
| GenerationProperties.MethodLinesFrom | src/main/java/plc/project/Generator.java:88-93 | from the second statement on, each is written after a line break |
| GenerationProperties.MethodLayout | src/main/java/plc/project/Generator.java:74-98 | a method is its return type, name, the joined parameters, `) {`, its statements laid out as a body, and `}`; an empty body prints `{}` |
| GenerationProperties.EmptySource | src/main/java/plc/project/Generator.java:32-59 | a source with no fields and no methods is the class Main holding only the Java entry point, piece by piece |
| GenerationProperties.DeclarationExample | src/main/java/plc/project/Generator.java:108-116 | a declared Integer x = 1 prints `int x = 1;` |
| Regex.IndexOfFirst | src/main/java/plc/homework/Regex.java:12 | the first separator is found after a part without it |
| Regex.SplitAtFirst | src/main/java/plc/homework/Regex.java:12 | splitting at the first separator gives back the parts |
| Regex.EmailSound | src/main/java/plc/homework/Regex.java:12 | every string the EMAIL recogniser accepts is in the pattern's language |
| Regex.EmailComplete | src/main/java/plc/homework/Regex.java:12 | every local part, domain and top-level domain of the pattern's shape is accepted |
| Regex.EmailIff | src/main/java/plc/homework/Regex.java:12 | EMAIL accepts exactly a non-empty local part, '@', a possibly empty domain, '.', and two or three lower-case letters, over the whole string |
| Regex.PairsCount | src/main/java/plc/homework/Regex.java:13 | a string splits into two-character groups exactly when its length is even and it has no line terminator |
| Regex.EvenStringIff | src/main/java/plc/homework/Regex.java:13 | EVEN_STRINGS accepts exactly the strings of even length from 10 to 20 without a line terminator |
| Regex.SpaceRun | src/main/java/plc/homework/Regex.java:16 | the run of \s characters at the start of a string |
| Regex.TailAccepts | src/main/java/plc/homework/Regex.java:16 | a tail of commas, whitespace and digits 1-9 is accepted |
| Regex.TailStep | src/main/java/plc/homework/Regex.java:16 | one more element extends an accepted tail |
| Regex.SpaceRunOf | src/main/java/plc/homework/Regex.java:16 | the run stops where the whitespace stops |
| Regex.RenderedListAccepted | src/main/java/plc/homework/Regex.java:16 | every list of digits 1-9 written with commas and whitespace after the commas is accepted |
| Regex.TailElements | src/main/java/plc/homework/Regex.java:16 | an accepted tail reads back as its elements and gaps |
| Regex.AcceptedListRendered | src/main/java/plc/homework/Regex.java:16 | every accepted string is such a list, so zero, a trailing comma, a leading space and a space before a comma are rejected |
| Regex.DigitRun | src/main/java/plc/homework/Regex.java:17 | the run of digits at the start of a string |
| Regex.DigitRunOf | src/main/java/plc/homework/Regex.java:17 | the run stops where the digits stop |
| Regex.NumberSound | src/main/java/plc/homework/Regex.java:17 | every accepted number is in the pattern's language |
| Regex.BodySplit | src/main/java/plc/homework/Regex.java:17 | an accepted body is digits, or digits, '.', digits |
| Regex.NumberComplete | src/main/java/plc/homework/Regex.java:17 | every sign, digits and optional fraction of the pattern's shape is accepted |
| Regex.NumberIff | src/main/java/plc/homework/Regex.java:17 | NUMBER accepts exactly an optional sign, one or more digits and an optional '.' with one or more digits |
| Regex.Items | src/main/java/plc/homework/Regex.java:18 | a valid body reads back as plain characters and escapes |
| Regex.FlattenValid | src/main/java/plc/homework/Regex.java:18 | plain characters and escapes make a valid body |
| Regex.QuotedStringIff | src/main/java/plc/homework/Regex.java:18 | STRING accepts exactly a quote, plain characters and the seven two-character escapes, and a quote |

## Left out

- Output. Nothing is printed: the interpreter's `print` function returns NIL without writing. The generator's `PrintWriter` is a string that the `Generator` class appends to.
- Line separator: `println` is modelled as `"\n"`, the line separator on Unix, rather than as the platform's separator.
- Failed runs: the text the generator has already written before an exception is not modelled. A failure is only the error.
- Exception messages: these texts are not modelled, only the exception kinds and the indices they carry.
- Java's regular-expression engine: the lexer's `peek` patterns are character classes (`Lexing.CharClass`), and `Regex.java`'s patterns are hand-written recognisers. Each recogniser is proved equal to a description of its pattern's language.
- The parser's non-terminating loops: Java spins in them forever, and the model returns `Err(Diverges)` instead.
- The interpreter's `while`: iterations past the `fuel` bound give `Err(OutOfFuel)`. The outcome of a loop that needs more fuel than it is given is not modelled, but any larger bound gives the same result.
- TODO visitors: the analyzer and interpreter visitors that the source leaves as `throw new UnsupportedOperationException()` are `Err(Unsupported)`.
- Receiver access and calls: the values the interpreter creates carry no fields or methods. An access or call on a receiver therefore evaluates the receiver and then fails.
- `Scope.java`, `Environment.java`, `Ast.java` and `Token.java` are not part of this model. The assumed rule that a redefinition in the same frame fails comes from the course's `Scope`.
- `Lexing.CharStream.Emit`: requires `0 <= length <= index <= |input|`. Every call from the lexer meets it, so the out-of-range `substring` of a direct call is not modelled.
- WriteLiteral (`Generation.WriteLiteral`): prints `null` for a NIL literal, the corrected half of the second finding. The source throws a `NullPointerException` there (`Generator.java:205`), as `Generation.WriteLiteralAsWritten` models. Strings and characters are printed without re-escaping, which follows the source.
- WriteExpr (`Generation.WriteExpr`): uses WriteLiteral, so an expression holding a NIL literal is written with `null` where the source throws. Every writer that prints an expression inherits this: `WriteStmt`, `WriteMethod` and `WriteSource`, so the statement `NIL;` becomes `null;`.
- VisitLiteral (`Generation.Generator.VisitLiteral`): prints `null` for NIL, where the source throws.
- VisitExpr (`Generation.Generator.VisitExpr`): equals WriteExpr, so a NIL literal inside is printed as `null`; the statement, method and source visitors inherit this.
- CharacterLiteral (`Parsing.CharacterLiteral`): decodes escapes with the corrected `Escapes.Unescape`, not the `String.replace` chain of `Parser.java:510-516`, which is `Escapes.ReplaceChain`. For the literal `'\\'` the source's chain gives `''`, so `charAt(1)` is a quote; the model gives the backslash.
- StringLiteral (`Parsing.StringLiteral`): decodes escapes with `Escapes.Unescape`, not the chain of `Parser.java:524-531`. For `"\\n"` the source gives a backslash and a line feed; the model gives a backslash and `n`.
- Primary (`Parsing.Primary`): its CHARACTER and STRING literals use CharacterLiteral and StringLiteral, so they differ from the source as those two lines say.
- ParsePrimary (`Parsing.Parser.ParsePrimary`): equals Primary, with the same difference.
- StringLiteralValue (`ParsingProperties.StringLiteralValue`): proves the round trip of the corrected decoding. The source's chain does not have it for a text holding a backslash followed by `b`, `r`, `n` or `t`.
- QuotedText (`ParsingProperties.QuotedText`): the same round trip, which the chain at `Parser.java:524-532` breaks in the same cases.
- CharacterLiteralValue (`ParsingProperties.CharacterLiteralValue`): holds for the corrected decoding only. For the backslash character the source yields a quote.
- QuotedChar (`ParsingProperties.QuotedChar`): the same, for position 1 of the decoded text.
- Invocation (`Interpretation.Invocation`): binds the i-th argument to the i-th parameter (`BindParameters`), the corrected half of the third finding. The source's nested `forEach` (`Interpreter.java:65-69`), modelled as `Interpretation.BindAsWritten`, defines every argument under every name. With at least one parameter and two or more arguments, the source fails on the second definition of the first name; the model binds positionally instead.
- Invoke (`Interpretation.Interpreter.Invoke`): its loop is BindParameters, with the same difference.
- InvokeCallable (`Interpretation.InvokeCallable`): closures go through Invocation, with the same difference.
- InvokeFunction (`Interpretation.Interpreter.InvokeFunction`): calls Invoke, with the same difference. Through the pipeline only `main/0` is invoked, with no arguments, where the two bindings agree.
- MethodReady (`Generation.MethodReady`, with `VariableReady`, `StmtReady`, `FieldReady` and `SourceReady`): the generator's functions and methods require the analyzer's annotations. The source's exceptions without them are not modelled: the `NullPointerException`-style failure of `ast.getFunction()` when no function was recorded, the `IndexOutOfBoundsException` of `getParameterTypeNames().get(i)` past the end, and the `RuntimeException` of `Environment.getType` on an unknown type name (`Generator.java:74-98`). The parser builds every method without parameter type names (`Parser.java:149`), and the analyzer's method visitor is a TODO, so a parsed method never meets MethodReady.
- WriteMethod (`Generation.WriteMethod`): requires MethodReady, so the exceptions above are not modelled.
- WriteParameters (`Generation.WriteParameters`): requires MethodReady, so the `IndexOutOfBoundsException` and unknown-type exceptions of `Generator.java:77-82` are not modelled.
- VisitMethod (`Generation.Generator.VisitMethod`): requires MethodReady, with the same gap.
- VisitParameters (`Generation.Generator.VisitParameters`): requires MethodReady, with the same gap.
- Lexing (the `Lexing` module): a Dafny `char` is a Unicode scalar value, while a Java `char` is a UTF-16 unit. A character outside the Basic Multilingual Plane is one character here and two in the source. So the character literal of such a character is accepted here, where the source throws at its second unit (`Lexer.java:120-140`), and every token index after such a character is one smaller per character than the source's, the parser's error indices included.
- StrOrder (`Interpretation.StrOrder`): orders strings by scalar value, while `String.compareTo` orders by UTF-16 unit. The two orders disagree between the characters U+E000 to U+FFFF and those outside the Basic Multilingual Plane.
- The double value of a decimal: only the analyzer's overflow test uses it, and it is modelled by the exact threshold above. `Double.parseDouble`'s rounding is otherwise not modelled.

## Findings

| source | as written | input that shows it | evidently intended | confidence | as-written member | corrected member |
|---|---|---|---|---|---|---|
| src/main/java/plc/project/Parser.java:525-531 | The escape decoding is a chain of `String.replace` calls, and it replaces `\n` before `\\`. The same chain is at lines 510-516 for characters. | The STRING literal `"\\n"` (an escaped backslash, then `n`) becomes a backslash and a line feed, not a backslash and `n`. | Each escape is decoded once, left to right, so the decoding undoes the escaping of any text. | not executed | Escapes.ReplaceChain, with Escapes.ReplaceChainMisreadsBackslash | Escapes.Unescape, with Escapes.UnescapeEscape |
| src/main/java/plc/project/Generator.java:205 | `ast.getLiteral().equals(Environment.NIL)` calls `equals` on the literal itself. | The literal `NIL`, which the parser builds as `new Ast.Expr.Literal(null)`, raises `NullPointerException`. | `NIL` is printed as `null`. | not executed | Generation.WriteLiteralAsWritten, with GenerationProperties.NilLiteralAsWritten | Generation.WriteLiteral, with GenerationProperties.NilLiteralAsWritten |
| src/main/java/plc/project/Interpreter.java:66-70 | Parameters are bound by two nested `forEach` loops, so every argument is defined under every parameter name. | `DEF f(a, b)` called with 1 and 2: the second definition of `a` fails, under the course `Scope` rule that redefinition in the same frame fails. | The i-th parameter is bound to the i-th argument. | not executed | Interpretation.BindAsWritten, with InterpretationProperties.TwoParametersAsWritten and InterpretationProperties.BindAsWrittenFails | Interpretation.BindParameters, with InterpretationProperties.TwoParametersPositional and InterpretationProperties.BindsPositionally |
