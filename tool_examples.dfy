/**
 * The example tools (tool_examples.go): the calculator, the weather lookup and the
 * text processor, with their names, descriptions and parameter schemas, and the
 * text processor's operations.
 */
module ToolExamples {
  import opened Wrappers
  import opened ToolTypes
  import Registry

  // ---------------------------------------------------------------------------
  // Names, descriptions, schemas
  // ---------------------------------------------------------------------------

  const CalculatorName := "calculator"
  const CalculatorDescription := "Perform basic mathematical operations (add, subtract, multiply, divide)"
  const WeatherName := "get_weather"
  const WeatherDescription := "Get current weather information for a specified location"
  const TextProcessorName := "text_processor"
  const TextProcessorDescription := "Process text with various operations like uppercase, lowercase, reverse, or word count"

  /** A leaf schema for a string field. */
  function StringField(description: string, enum: seq<string>): Parameter {
    Node("string", description, map[], [], Nil, enum)
  }

  /** The calculator's arguments: an operation among four, and two numbers given as strings. */
  function CalculatorParameters(): (p: Parameter)
    ensures p.Node? && p.typ == "object"
    ensures p.properties.Keys == {"operation", "a", "b"}
    ensures RequiredDeclared(p)
  {
    Node("object", "",
         map["operation" := StringField("The mathematical operation to perform", ["add", "subtract", "multiply", "divide"]),
             "a" := StringField("First number", []),
             "b" := StringField("Second number", [])],
         ["operation", "a", "b"], Nil, [])
  }

  /** The weather tool's arguments: a required location and an optional unit. */
  function WeatherParameters(): (p: Parameter)
    ensures p.Node? && p.typ == "object"
    ensures p.properties.Keys == {"location", "unit"}
    ensures RequiredDeclared(p)
  {
    Node("object", "",
         map["location" := StringField("The city and state/country for weather lookup", []),
             "unit" := StringField("Temperature unit (celsius or fahrenheit)", ["celsius", "fahrenheit"])],
         ["location"], Nil, [])
  }

  /** The text processor's arguments: the text and an operation among five. */
  function TextProcessorParameters(): (p: Parameter)
    ensures p.Node? && p.typ == "object"
    ensures p.properties.Keys == {"text", "operation"}
    ensures p.properties["operation"].Node? && p.properties["operation"].enum == TextOperations
    ensures RequiredDeclared(p)
  {
    Node("object", "",
         map["text" := StringField("The text to process", []),
             "operation" := StringField("The operation to perform on the text", TextOperations)],
         ["text", "operation"], Nil, [])
  }

  /** The calculator; its arithmetic is given as `execute`. */
  function CalculatorTool(execute: RawMessage -> Result<string, string>): Tool {
    Tool(CalculatorName, CalculatorDescription, CalculatorParameters(), execute)
  }

  /** The weather tool; its clock-driven simulation is given as `execute`. */
  function WeatherTool(execute: RawMessage -> Result<string, string>): Tool {
    Tool(WeatherName, WeatherDescription, WeatherParameters(), execute)
  }

  /**
   * The text processor. JSON decoding of the arguments and Unicode case mapping
   * are library code, given as `decode`, `toUpper` and `toLower`.
   */
  function TextProcessorTool(decode: RawMessage -> Result<TextProcessorArgs, string>,
                             toUpper: string -> string, toLower: string -> string): Tool {
    Tool(TextProcessorName, TextProcessorDescription, TextProcessorParameters(),
         (raw: RawMessage) => DecodeAndProcess(decode, toUpper, toLower, raw))
  }

  /** The three example tools carry non-empty, pairwise different names. */
  lemma ExampleToolNamesDistinct(calculate: RawMessage -> Result<string, string>,
                                 weather: RawMessage -> Result<string, string>,
                                 decode: RawMessage -> Result<TextProcessorArgs, string>,
                                 toUpper: string -> string, toLower: string -> string)
    ensures CalculatorTool(calculate).name != "" && WeatherTool(weather).name != ""
    ensures TextProcessorTool(decode, toUpper, toLower).name != ""
    ensures CalculatorTool(calculate).name != WeatherTool(weather).name
    ensures CalculatorTool(calculate).name != TextProcessorTool(decode, toUpper, toLower).name
    ensures WeatherTool(weather).name != TextProcessorTool(decode, toUpper, toLower).name
  {
  }

  /** Registering the three example tools into a fresh registry succeeds for each; the catalog then holds exactly them, under their names. */
  method RegisterExampleTools(registry: Registry.ToolRegistry,
                              calculate: RawMessage -> Result<string, string>,
                              weather: RawMessage -> Result<string, string>,
                              decode: RawMessage -> Result<TextProcessorArgs, string>,
                              toUpper: string -> string, toLower: string -> string)
    returns (outcomes: seq<Outcome<Error>>)
    requires registry.Valid() && registry.tools == map[]
    modifies registry
    ensures registry.Valid()
    ensures outcomes == [Pass, Pass, Pass]
    ensures registry.tools == map[CalculatorName := CalculatorTool(calculate),
                                  WeatherName := WeatherTool(weather),
                                  TextProcessorName := TextProcessorTool(decode, toUpper, toLower)]
  {
    ExampleToolNamesDistinct(calculate, weather, decode, toUpper, toLower);
    var calculator, weatherTool, textProcessor :=
      CalculatorTool(calculate), WeatherTool(weather), TextProcessorTool(decode, toUpper, toLower);
    var first := registry.Register(calculator);
    assert registry.tools == map[calculator.name := calculator];
    var second := registry.Register(weatherTool);
    assert registry.tools.Keys == {calculator.name, weatherTool.name};
    var third := registry.Register(textProcessor);
    outcomes := [first, second, third];
  }

  // ---------------------------------------------------------------------------
  // The text processor
  // ---------------------------------------------------------------------------

  /** The decoded arguments of the text processor. */
  datatype TextProcessorArgs = TextProcessorArgs(text: string, operation: string)

  /** The operations the text processor supports. */
  const TextOperations: seq<string> := ["uppercase", "lowercase", "reverse", "word_count", "char_count"]

  /**
   * One text operation: case mapping, reversal of the code points, the number of
   * whitespace-separated words, or the length in UTF-8 bytes; any other operation
   * is an error.
   */
  function ProcessText(args: TextProcessorArgs, toUpper: string -> string, toLower: string -> string)
    : (r: Result<string, string>)
    ensures r.Failure? <==> args.operation !in TextOperations
    ensures r.Failure? ==> r.error == "unsupported operation: " + args.operation
  {
    var text := args.text;
    if args.operation == "uppercase" then Success(toUpper(text))
    else if args.operation == "lowercase" then Success(toLower(text))
    else if args.operation == "reverse" then Success(Reversed(text))
    else if args.operation == "word_count" then Success(FormatDecimal(|Fields(text)|))
    else if args.operation == "char_count" then Success(FormatDecimal(ByteLength(text)))
    else Failure("unsupported operation: " + args.operation)
  }

  /** Decodes the raw arguments, then runs the operation. */
  function DecodeAndProcess(decode: RawMessage -> Result<TextProcessorArgs, string>,
                            toUpper: string -> string, toLower: string -> string,
                            raw: RawMessage): Result<string, string> {
    match decode(raw)
    case Failure(e) => Failure("invalid arguments: " + e)
    case Success(args) => ProcessText(args, toUpper, toLower)
  }

  /**
   * TextProcessorTool.Execute: the reversal is done in place on an array of code
   * points; the result is what the tool's `execute` promises.
   */
  method TextProcessorExecute(decode: RawMessage -> Result<TextProcessorArgs, string>,
                              toUpper: string -> string, toLower: string -> string,
                              raw: RawMessage) returns (r: Result<string, string>)
    ensures r == TextProcessorTool(decode, toUpper, toLower).execute(raw)
  {
    var decoded := decode(raw);
    if decoded.Failure? {
      return Failure("invalid arguments: " + decoded.error);
    }
    var args := decoded.value;
    if args.operation == "reverse" {
      var text := args.text;
      var runes := new char[|text|](i requires 0 <= i < |text| => text[i]);
      assert runes[..] == text;
      ghost var swaps := ReverseRunes(runes);
      r := Success(runes[..]);
    } else {
      r := ProcessText(args, toUpper, toLower);
    }
  }

  // ---------------------------------------------------------------------------
  // reverse
  // ---------------------------------------------------------------------------

  /** A sequence read back to front. */
  function Reversed<T>(s: seq<T>): seq<T> {
    if s == [] then [] else Reversed(s[1..]) + [s[0]]
  }

  /** Position k of the reversal holds position |s| - 1 - k of the input. */
  lemma {:induction false} ReversedIndex<T>(s: seq<T>)
    ensures |Reversed(s)| == |s|
    ensures forall k :: 0 <= k < |s| ==> Reversed(s)[k] == s[|s| - 1 - k]
  {
    if s != [] {
      ReversedIndex(s[1..]);
    }
  }

  /** Reversing twice gives the input back. */
  lemma ReversedTwice<T>(s: seq<T>)
    ensures Reversed(Reversed(s)) == s
  {
    ReversedIndex(s);
    ReversedIndex(Reversed(s));
  }

  /**
   * The swap loop: two indices walk inwards from both ends, swapping as they go,
   * until they meet; that is n/2 swaps, rounded down, and the array ends up reversed.
   */
  method ReverseRunes(runes: array<char>) returns (ghost swaps: nat)
    modifies runes
    ensures runes[..] == Reversed(old(runes[..]))
    ensures swaps == runes.Length / 2
  {
    var n := runes.Length;
    var i, j := 0, n - 1;
    swaps := 0;
    while i < j
      invariant 0 <= i <= j + 1 && i + j == n - 1
      invariant swaps == i
      invariant forall k :: 0 <= k < i ==> runes[k] == old(runes[n - 1 - k]) && runes[n - 1 - k] == old(runes[k])
      invariant forall k :: i <= k <= j ==> runes[k] == old(runes[k])
    {
      runes[i], runes[j] := runes[j], runes[i];
      i, j := i + 1, j - 1;
      swaps := swaps + 1;
    }
    ReversedIndex(old(runes[..]));
  }

  /**
   * The "reverse" operation answers the reversal of the text (see ReversedIndex); it
   * keeps the length, and reversing the output again restores the text.
   */
  lemma ReverseRoundTrip(text: string, toUpper: string -> string, toLower: string -> string)
    ensures var r := ProcessText(TextProcessorArgs(text, "reverse"), toUpper, toLower);
      && r.Success? && r.value == Reversed(text) && |r.value| == |text|
      && ProcessText(TextProcessorArgs(r.value, "reverse"), toUpper, toLower) == Success(text)
  {
    ReversedIndex(text);
    ReversedTwice(text);
  }

  // ---------------------------------------------------------------------------
  // word_count
  // ---------------------------------------------------------------------------

  /**
   * Go's unicode.IsSpace: tab, line feed, vertical tab, form feed, carriage return,
   * space, U+0085 (NEL) and U+00A0 (no-break space), and beyond Latin-1 the other
   * White_Space code points: U+1680, U+2000 to U+200A, U+2028, U+2029, U+202F,
   * U+205F and U+3000.
   */
  predicate IsSpace(c: char) {
    var u := c as int;
    || 0x09 <= u <= 0x0D || u == 0x20 || u == 0x85 || u == 0xA0
    || u == 0x1680 || 0x2000 <= u <= 0x200A
    || u == 0x2028 || u == 0x2029 || u == 0x202F || u == 0x205F || u == 0x3000
  }

  /** The length of the leading run of whitespace. */
  function SpacePrefix(s: string): (n: nat)
    ensures n <= |s|
    ensures forall k :: 0 <= k < n ==> IsSpace(s[k])
    ensures n < |s| ==> !IsSpace(s[n])
  {
    if s == [] || !IsSpace(s[0]) then 0 else 1 + SpacePrefix(s[1..])
  }

  /** The length of the leading run of non-whitespace. */
  function WordPrefix(s: string): (n: nat)
    ensures n <= |s|
    ensures forall k :: 0 <= k < n ==> !IsSpace(s[k])
    ensures n < |s| ==> IsSpace(s[n])
  {
    if s == [] || IsSpace(s[0]) then 0 else 1 + WordPrefix(s[1..])
  }

  /**
   * strings.Fields: the runs of non-whitespace, in order. Every field is non-empty
   * and holds no whitespace; FieldsKeepText shows that together they hold the text
   * without its whitespace, and FieldsCountWords that there is one per word.
   */
  function Fields(s: string): (r: seq<string>)
    ensures forall i :: 0 <= i < |r| ==> r[i] != [] && forall k :: 0 <= k < |r[i]| ==> !IsSpace(r[i][k])
    decreases |s|
  {
    var start := SpacePrefix(s);
    if start == |s| then []
    else
      var rest := s[start..];
      var len := WordPrefix(rest);
      [rest[..len]] + Fields(rest[len..])
  }

  /** The text with every whitespace character removed. */
  function Unspaced(s: string): string {
    if s == [] then [] else (if IsSpace(s[0]) then [] else [s[0]]) + Unspaced(s[1..])
  }

  /** The concatenation of a list of strings. */
  function Concat(parts: seq<string>): string {
    if parts == [] then [] else parts[0] + Concat(parts[1..])
  }

  /** Removing whitespace skips a leading run of whitespace. */
  lemma {:induction false} UnspacedSkipsSpaces(s: string, n: nat)
    requires n <= |s|
    requires forall k :: 0 <= k < n ==> IsSpace(s[k])
    ensures Unspaced(s) == Unspaced(s[n..])
    decreases n
  {
    if n > 0 {
      UnspacedSkipsSpaces(s[1..], n - 1);
      assert s[1..][n - 1..] == s[n..];
    }
  }

  /** Removing whitespace keeps a leading run without whitespace as it is. */
  lemma {:induction false} UnspacedKeepsWord(s: string, n: nat)
    requires n <= |s|
    requires forall k :: 0 <= k < n ==> !IsSpace(s[k])
    ensures Unspaced(s) == s[..n] + Unspaced(s[n..])
    decreases n
  {
    if n > 0 {
      UnspacedKeepsWord(s[1..], n - 1);
      assert s[1..][n - 1..] == s[n..];
      assert s[..n] == [s[0]] + s[1..][..n - 1];
    }
  }

  /** The fields, put back together, are the text without its whitespace: no character is lost. */
  lemma {:induction false} FieldsKeepText(s: string)
    ensures Concat(Fields(s)) == Unspaced(s)
    decreases |s|
  {
    var start := SpacePrefix(s);
    UnspacedSkipsSpaces(s, start);
    if start < |s| {
      var rest := s[start..];
      var len := WordPrefix(rest);
      UnspacedKeepsWord(rest, len);
      FieldsKeepText(rest[len..]);
      var fields := Fields(s);
      assert fields == [rest[..len]] + Fields(rest[len..]);
      assert fields[0] == rest[..len] && fields[1..] == Fields(rest[len..]);
    }
  }

  /**
   * The reference count of words: scan left to right and count each non-whitespace
   * character that does not continue a word (`inWord` says whether the previous one did).
   */
  function CountWords(s: string, inWord: bool): nat {
    if s == [] then 0
    else if IsSpace(s[0]) then CountWords(s[1..], false)
    else (if inWord then 0 else 1) + CountWords(s[1..], true)
  }

  /** Leading whitespace starts no word. */
  lemma {:induction false} CountSkipsSpaces(s: string, n: nat)
    requires n <= |s|
    requires forall k :: 0 <= k < n ==> IsSpace(s[k])
    ensures CountWords(s, false) == CountWords(s[n..], false)
  {
    if n > 0 {
      CountSkipsSpaces(s[1..], n - 1);
      assert s[1..][n - 1..] == s[n..];
    }
  }

  /** The rest of a word that has started starts no new word. */
  lemma {:induction false} CountSkipsWordRest(s: string, n: nat)
    requires n <= |s|
    requires forall k :: 0 <= k < n ==> !IsSpace(s[k])
    requires n < |s| ==> IsSpace(s[n])
    ensures CountWords(s, true) == CountWords(s[n..], false)
  {
    if n > 0 {
      CountSkipsWordRest(s[1..], n - 1);
      assert s[1..][n - 1..] == s[n..];
    }
  }

  /** strings.Fields finds exactly as many fields as the scan counts words. */
  lemma {:induction false} FieldsCountWords(s: string)
    ensures |Fields(s)| == CountWords(s, false)
    decreases |s|
  {
    var start := SpacePrefix(s);
    CountSkipsSpaces(s, start);
    if start < |s| {
      var rest := s[start..];
      var len := WordPrefix(rest);
      CountSkipsWordRest(rest[1..], len - 1);
      assert rest[1..][len - 1..] == rest[len..];
      FieldsCountWords(rest[len..]);
    }
  }

  /** word_count reports, in decimal (see ParseFormatDecimal), the number of words the scan counts. */
  lemma WordCountCountsWords(text: string, toUpper: string -> string, toLower: string -> string)
    ensures ProcessText(TextProcessorArgs(text, "word_count"), toUpper, toLower)
         == Success(FormatDecimal(CountWords(text, false)))
  {
    FieldsCountWords(text);
  }

  // ---------------------------------------------------------------------------
  // char_count
  // ---------------------------------------------------------------------------

  /** The number of bytes UTF-8 uses for one code point. */
  function Utf8Width(c: char): nat {
    if c as int < 0x80 then 1
    else if c as int < 0x800 then 2
    else if c as int < 0x10000 then 3
    else 4
  }

  /** Go's len of a string: its length in UTF-8 bytes. */
  function ByteLength(s: string): nat {
    if s == [] then 0 else Utf8Width(s[0]) + ByteLength(s[1..])
  }

  /** Every code point is below 0x80. */
  predicate IsAscii(s: string) {
    forall k :: 0 <= k < |s| ==> s[k] as int < 0x80
  }

  /**
   * The byte length is between one and four bytes per code point, and it equals the
   * number of code points exactly when the text is ASCII.
   */
  lemma {:induction false} ByteLengthBounds(s: string)
    ensures |s| <= ByteLength(s) <= 4 * |s|
    ensures ByteLength(s) == |s| <==> IsAscii(s)
  {
    if s != [] {
      ByteLengthBounds(s[1..]);
      if IsAscii(s) {
        assert IsAscii(s[1..]) by {
          forall k | 0 <= k < |s[1..]| ensures s[1..][k] as int < 0x80 {
            assert s[1..][k] == s[k + 1];
          }
        }
      }
      if ByteLength(s) == |s| {
        forall k | 0 <= k < |s| ensures s[k] as int < 0x80 {
          if k > 0 {
            assert s[k] == s[1..][k - 1];
          }
        }
      }
    }
  }

  /**
   * char_count reports, in decimal (see ParseFormatDecimal), the UTF-8 byte length;
   * by ByteLengthBounds that is the number of code points only for ASCII text.
   */
  lemma CharCountIsByteLength(text: string, toUpper: string -> string, toLower: string -> string)
    ensures ProcessText(TextProcessorArgs(text, "char_count"), toUpper, toLower)
         == Success(FormatDecimal(ByteLength(text)))
  {
  }

  // ---------------------------------------------------------------------------
  // Decimal rendering (fmt's %d)
  // ---------------------------------------------------------------------------

  /** A non-empty string of ASCII digits. */
  predicate IsDecimal(s: string) {
    |s| > 0 && forall k :: 0 <= k < |s| ==> '0' <= s[k] <= '9'
  }

  /** The digit character of 0..9. */
  function DigitChar(d: nat): (c: char)
    requires d < 10
    ensures '0' <= c <= '9' && c as int - '0' as int == d
  {
    (d + '0' as int) as char
  }

  /** fmt.Sprintf("%d", n) for a non-negative n: digits, no leading zero except "0" itself. */
  function FormatDecimal(n: nat): (r: string)
    ensures IsDecimal(r)
    ensures r[0] == '0' ==> n == 0 && r == "0"
    decreases n
  {
    if n < 10 then [DigitChar(n)] else FormatDecimal(n / 10) + [DigitChar(n % 10)]
  }

  /** The value of a string of digits. */
  function ParseDecimal(s: string): nat
    requires forall k :: 0 <= k < |s| ==> '0' <= s[k] <= '9'
  {
    if s == [] then 0 else ParseDecimal(s[..|s| - 1]) * 10 + (s[|s| - 1] as int - '0' as int)
  }

  /** Reading the rendered number back gives the number. */
  lemma {:induction false} ParseFormatDecimal(n: nat)
    ensures ParseDecimal(FormatDecimal(n)) == n
    decreases n
  {
    var r := FormatDecimal(n);
    if n >= 10 {
      ParseFormatDecimal(n / 10);
      assert r[..|r| - 1] == FormatDecimal(n / 10);
    }
  }

  // ---------------------------------------------------------------------------
  // Scenarios
  // ---------------------------------------------------------------------------

  /** The text "100.00" is six bytes long. */
  lemma CharCountOfHundred(toUpper: string -> string, toLower: string -> string)
    ensures ProcessText(TextProcessorArgs("100.00", "char_count"), toUpper, toLower) == Success("6")
  {
    assert ByteLength("100.00") == 6 by {
      ByteLengthBounds("100.00");
    }
  }
}
