# MtlReader parsing engine in Dafny

A model of the parser of andreasbank/MtlReader, with proofs about it. MtlReader reads Wavefront `.mtl` material
files.

The parser works line by line:

- A `newmtl` line appends a new material to the object's ordered list.
- A field line before any material is dropped.
- Any other line is matched against the static keyword table `keys[]`. The first keyword that matches wins.
- Then the first value shape that matches wins. The cursor lexer reads the value into local buffers.
- The value is written into the last material only when every scalar converted.

The model follows the source's own structure:

- `MtlObject` is a class. Its field `materials: seq<Material>` stands for the object's list of materials.
- `ParseLine`, `ParseKeys`, `ParseField` and `ParseAll` are methods with the source's loops: the key loop, the shape
  loop and the constructor's `getline` loop.
- Each method is proved equal to a specification function: `Step` for one line, `ParseLines` for a file.
- The properties of the parser are lemmas about those functions.
- The lexer operations (`skipOptionalChars`, `skipToNextLine`, `parseParamFloat`, `parseParamInt`,
  `parseParam3Floats`) are methods. Each is proved against a function on the line and the cursor.
- The keyword table and the material record are datatype values.
- `std::stoi` and `std::stof` are numeric-prefix readers over strings. They return the value and the number of
  characters consumed, or the exception they throw.

Modules, one per file:

| file | module | what it holds |
|---|---|---|
| wrappers.dfy | `Wrappers` | `Option`, `Result` |
| std_string.dfy | `StdString` | `compare`, `find`, `find_first_of`, `operator[]` up to `size()` |
| number_conversion.dfy | `NumberConversion` | `Int32`, `stoi`, `stof` |
| mtl_material.dfy | `MtlMaterial` | `MtlColor`, `MtlMap`, `MtlMaterial` and the constructor defaults |
| mtl_schema.dfy | `MtlSchema` | `mtlKeyType`, `mtlValType`, `mtlOpt`, `mtlVal`, `mtlKey`, `kVals`, `dOpts`, `intVal`, `floatVal`, `keys[]` |
| mtl_lexer.dfy | `MtlLexer` | the cursor lexer |
| lexer_properties.dfy | `MtlLexerProperties` | how the lexer cuts and reads tokens |
| mtl_parser.dfy | `MtlParser` | `Step`, `ParseLines` and the class `MtlObject` |
| parser_properties.dfy | `MtlParserProperties` | what one `parseLine` call does, branch by branch and keyword by keyword |
| driver_properties.dfy | `MtlDriverProperties` | what the constructor's line loop does over a whole file |
| scenarios.dfy | `MtlScenarios` | what `ParseLines` yields on three small files |

### Where the code departs from the MTL format

In several places the code does not do what the Wavefront MTL format, or a reader of it, would expect. In each case the model follows the code. The two places where the C++ is undefined are the exception: there the model makes a choice, and says so.

- **Key boundary test.** In the MTL format a keyword is followed by white space.
  - The code compares the keyword at `pos`.
  - The space it then tests is `data[keyNameSize]`, an index counted from the start of the line (src/MtlObject.cpp:256-257).
  - So a field line indented by one optional character is ignored (`IndentedByOneIgnored`).
  - A `d` line indented by two spaces is accepted (`IndentedDissolveAccepted`).
  - A tab never counts as the boundary.
- **Material boundary.** In the MTL format `newmtl` is followed by white space and the name.
  - The code accepts `newmtl` followed by any character, for example `newmtlX name`.
  - It skips seven characters.
  - It keeps the rest of the line as the name, trailing text included (`NewmtlAppends`).
- **`newmtl` with nothing after it.** One would expect a material with an empty name. The C++ behaves differently:
  - In the code, `skipOptionalChars` reads one past the end of the line, which is undefined.
  - Then `substr` throws `out_of_range` outside any `try`.
  - The model ends the parse with `Aborted(NewmtlAtEnd)` (`NewmtlAloneAborts`).
  - `newmtl` followed by one space does give the empty name.
- **A colour value that ends early.** This is undefined in the C++:
  - `parseParam3Floats` reads `data[npos]` when the first token, or the first two, convert and the last of them runs to the end of the line (src/MtlObject.cpp:170-172, 175-177).
  - Examples are `Ka 0.1` and `Ka 0.1 0.2`.
  - The C++ standard gives that read no meaning.
  - On a typical library it may well stop at a zero byte, after which `substr(npos)` throws `out_of_range` inside the `try` and is caught.
  - The model does not guess. It ends the parse at that line with `Aborted(ReadAtNpos)` (`ShortColorLineAborts`).
- **The undefined read does not cover every short value:**
  - With a trailing space (`Ka 0.1 0.2 `) the third token is empty, so `stof` throws `invalid_argument`, which is caught.
  - A first token that does not convert throws before any such read.
- **`Ns`.** The MTL format gives `Ns` a float. The code stores it through `stoi` into the `int` field `specularExponent` (src/MtlObject.cpp:327-328).
- **Recognised keywords.** The MTL format has more keywords (`sharpness`, `Ni`, the maps). The table in use has only the seven of `keys[]`. Every other line is ignored.
- **`-halo`.** Option parsing is commented out, so `-halo` is never consumed. `d -halo 0.5` hands `-halo 0.5` to `stof`, which throws (`HaloNotConsumed`).
- **Same input, same result.** The code leaves `transformFilter` and `dissolveHalo` uninitialised, so two runs of the C++ need not agree. In the model those two fields get a fixed value, and `Step` and `ParseLines` are functions.

## Model

| member | source | states |
|---|---|---|
| StdString.At | src/MtlObject.cpp:143-157 | `data[i]` for `i` up to the size reads the text as the C string it stores: the character at `i`, or the terminating `'\0'` at the size |
| StdString.CompareEqual | src/MtlObject.cpp:256 | `data.compare(pos, n, word) == 0`, with `n` the word's length, holds exactly when the word occurs at `pos`; a comparison cut short by the end of the line fails |
| StdString.Find | src/MtlObject.cpp:227 | `find` returns the least index at or after the start where the word occurs, or `npos` when it occurs nowhere after it |
| StdString.FindAtStartIffOccurs | src/MtlObject.cpp:227 | `pos == data.find("newmtl", pos)` holds exactly when `newmtl` occurs at `pos`: there is no word-boundary test |
| StdString.FindFirstOf | src/MtlObject.cpp:150 | `find_first_of` returns the least index at or after the start holding the character, or `npos` when no later index holds it |
| StdString.FindOneCharacter | src/MtlObject.cpp:168 | `find(" ", pos)` finds what `find_first_of(' ', pos)` finds |
| NumberConversion.IntegerPrefix | src/MtlObject.cpp:199 | what `strtol` reads for `stoi`: nothing exactly when no optional sign and digit follow the white space; otherwise a length past the white space that stops before a non-digit |
| NumberConversion.Stoi | src/MtlObject.cpp:199 | `stoi` throws `invalid_argument` exactly when no optional sign and digit follow the leading white space, and `out_of_range` only when the value does not fit an `int`; otherwise it returns the value `strtol` reads and exactly the length it reads, which stops before a non-digit |
| NumberConversion.StoiReadsDecimal | src/MtlObject.cpp:199 | round trip: `stoi` reads the decimal rendering of every `int` back as that `int`, consuming exactly the rendering, whatever non-digit text follows |
| NumberConversion.ExponentPart | src/MtlObject.cpp:189 | the exponent part `strtof` reads after the mantissa: it reads something exactly when `e` or `E`, an optional sign and a digit follow, and an incomplete exponent reads nothing and counts as zero; otherwise it reads the digits up to the next non-digit, negated exactly when the sign before them is `-` |
| NumberConversion.ExponentFollows | src/MtlObject.cpp:189 | an exponent `e` or `E`, an optional sign and digits at the end of a token reads as its signed value, and reading ends at the end of the token |
| NumberConversion.DecimalPrefix | src/MtlObject.cpp:189 | what `strtof` reads: nothing exactly when no optional sign and digit (or point and digit) follow the white space; otherwise a consumed length past the white space that stops before a non-digit |
| NumberConversion.Stof | src/MtlObject.cpp:189 | `stof` throws exactly when nothing converts, and then always `invalid_argument`; otherwise it returns the value and a consumed length of at least one that stops before a non-digit |
| NumberConversion.StofRejectsWord | src/MtlObject.cpp:169 | `stof` throws on a token whose first character is neither white space, a sign, a digit nor a point |
| NumberConversion.StofRejectsSignedWord | src/MtlObject.cpp:189 | `stof` throws on a sign followed by a character that is neither a digit nor a point |
| NumberConversion.StofReadsFixedPoint | src/MtlObject.cpp:189 | `stof` reads `digits.digits`, followed by anything that cannot continue a number, as its exact decimal value and consumes exactly that text |
| NumberConversion.StofReadsInteger | src/MtlObject.cpp:189 | `stof` reads digits, followed by anything that cannot continue a number, as their integer value and consumes exactly the digits |
| NumberConversion.DecimalPrefixPoint | src/MtlObject.cpp:189 | `strtof` reads `digits.digits` followed by no digit as the digits with the point removed, scaled by the exponent that follows less the number of fraction digits, and stops where the exponent part stops |
| NumberConversion.StofReadsScientific | src/MtlObject.cpp:189 | `stof` reads a whole token `digits.digits` followed by `e` or `E`, an optional sign and digits as the mantissa times ten to the signed exponent, and consumes the whole token |
| MtlMaterial.NewMaterial | src/MtlMaterial.cpp:11-28 | a new material has the given name; its illumination, dissolve, specular exponent, sharpness and optical density are zero; its ambient, diffuse and specular colours are (0, 0, 0); its six maps are `ambient`, `diffuse`, `specular color`, `specular exponent`, `decal`, `disposition`; its `map_aat` flag is false |
| MtlMaterial.DefaultMaterial | include/MtlMaterial.hpp:20 | the default constructor argument is the empty name |
| MtlSchema.KeyTable | src/MtlObject.cpp:76-110 | `keys[]` has seven entries, in the order `Ka`, `Kd`, `Ks`, `Tf`, `illum`, `d`, `Ns`, with their key types, and every entry's `nrValues` and `nrOptions` are the lengths of its arrays |
| MtlSchema.KeyNamesDistinct | include/MtlObject_int.hpp:80-100 | the key names are pairwise distinct and none is empty |
| MtlSchema.EveryKeyHasUnnamedShape | include/MtlObject_int.hpp:63-100 | every entry has an unnamed shape, so shape selection cannot fail once a keyword matched |
| MtlSchema.ShapesFitCommit | src/MtlObject.cpp:284-329 | every shape the lexing switch can read fills exactly the buffer the key's commit case reads |
| MtlSchema.ColorKeyShapes | include/MtlObject_int.hpp:82-93 | `Ka`, `Kd`, `Ks` and `Tf` share the shapes of `kVals` |
| MtlSchema.IntKeyShapes | include/MtlObject_int.hpp:95-99 | `illum` and `Ns` have the single unnamed int shape `intVal` |
| MtlSchema.KeyShapes | include/MtlObject_int.hpp:63-100 | `kVals` is `xyz` with 3 floats, `spectral` with string and float, unnamed with 3 floats; `illum` and `Ns` read one unnamed int and have no options; `d` reads one unnamed float and has the one option `-halo` of float type |
| MtlLexer.SkipEnd | src/MtlObject.cpp:141-145 | `skipOptionalChars` only moves forward, only over `'`, space and `"`, and stops at the first other character or at the string's terminating `'\0'` |
| MtlLexer.SkipOptionalChars | src/MtlObject.cpp:141-145 | the loop leaves the cursor where `SkipEnd` says |
| MtlLexer.BlankEnd | src/MtlObject.cpp:155-156 | the whitespace loop of `skipToNextLine` passes exactly the spaces and tabs and stops at the first other character |
| MtlLexer.NextLineStart | src/MtlObject.cpp:148-160 | with a `'\n'` at or after `pos`, the new cursor is one past the first one plus the spaces and tabs after it; without one, the cursor is unchanged |
| MtlLexer.SkipToNextLine | src/MtlObject.cpp:148-160 | the method leaves the cursor where `NextLineStart` says |
| MtlLexer.LexFloat | src/MtlObject.cpp:184-191 | on success `parseParamFloat` moves the cursor past at least one character and stops it before a non-digit; a failure is `invalid_argument` |
| MtlLexer.LexInt | src/MtlObject.cpp:194-201 | on success `parseParamInt` moves the cursor past at least one character and stops it before a non-digit |
| MtlLexer.ParseParamFloat | src/MtlObject.cpp:184-191 | `parseParamFloat` succeeds exactly when `stof` converts the text after the optional characters, returns its value, and advances the cursor by exactly the optional characters plus the length `stof` consumed |
| MtlLexer.ParseParamInt | src/MtlObject.cpp:194-201 | the same for `parseParamInt` and `stoi` |
| MtlLexer.Token | src/MtlObject.cpp:168-170 | a token is the text up to the next space, which becomes the cursor, or the rest of the line with the cursor at `npos`; it holds no space |
| MtlLexer.NextToken | src/MtlObject.cpp:167-170 | an `Extract float` block leaves the cursor on a space at or after its start, or at `npos` |
| MtlLexer.Lex3Floats | src/MtlObject.cpp:163-181 | a successful `parseParam3Floats` leaves the cursor on a space after its start, or at `npos` |
| MtlLexer.ParseParam3Floats | src/MtlObject.cpp:163-181 | the three blocks compute what `Lex3Floats` says: the first conversion failure is caught, and a cursor at `npos` before the second or third block is an undefined read |
| MtlLexerProperties.SkipEndAt | src/MtlObject.cpp:141-145 | `skipOptionalChars` stops exactly at the end of the run of optional characters |
| MtlLexerProperties.TokenOfPlain | src/MtlObject.cpp:168-170 | a token without spaces followed by a space or the end of the line is cut exactly, and the cursor stops at that space or at `npos` |
| MtlLexerProperties.NextTokenOfPlain | src/MtlObject.cpp:167-170 | a block started on a plain token cuts exactly that token |
| MtlLexerProperties.NextTokenAfterSpace | src/MtlObject.cpp:172-174 | a block started on the space left by the previous block skips it and cuts the next plain token |
| MtlLexerProperties.NextTokenLast | src/MtlObject.cpp:177-180 | a block started on the space before the line's last token cuts that token and leaves the cursor at `npos` |
| MtlLexerProperties.ThreeTokenBlocks | src/MtlObject.cpp:166-180 | on three plain tokens separated by single spaces, the blocks stop at the first space, at the second space and at `npos` |
| MtlLexerProperties.ReadThreeTokensAt | src/MtlObject.cpp:163-181 | on three tokens laid out that way, `parseParam3Floats` returns the first conversion failure, or the three values in order |
| MtlLexerProperties.ReadThreeTokens | src/MtlObject.cpp:163-181 | the same for a value written as `t1 t2 t3` |
| MtlLexerProperties.ReadOneToken | src/MtlObject.cpp:166-172 | one plain token to the end of the line: its conversion failure is caught; if it converts, the second block reads `data[npos]` |
| MtlLexerProperties.TwoTokenBlocks | src/MtlObject.cpp:166-175 | on two plain tokens separated by one space, the first block stops at that space and the second at `npos` |
| MtlLexerProperties.TwoBlocksRead | src/MtlObject.cpp:163-177 | two blocks, the second ending the line: the first conversion failure wins; if both convert, the third block reads `data[npos]` |
| MtlLexerProperties.ReadTwoTokens | src/MtlObject.cpp:163-177 | the same for a value written as `t1 t2` |
| MtlParser.IsBoundary | src/MtlObject.cpp:227 | `pos == data.find("newmtl", pos)` holds exactly when `newmtl` occurs at `pos`, whatever follows it |
| MtlParser.KeyMatches | src/MtlObject.cpp:256-257 | a key matches exactly when its name occurs at `pos` and the character at index `keyNameSize` from the start of the line is a space |
| MtlParser.FirstKeyFrom | src/MtlObject.cpp:252-258 | the key scan from entry `i` finds the least matching entry at or after `i`, and no entry before it matches |
| MtlParser.FirstKey | src/MtlObject.cpp:250-258 | at most one key is taken: the first entry in table order whose name compares equal at `pos` and for which `data[keyNameSize]` is a space; none is taken when no entry matches |
| MtlParser.FirstKeyIs | src/MtlObject.cpp:252-258 | an entry that matches, with no earlier entry matching, is the key taken |
| MtlParser.ShapeSelected | src/MtlObject.cpp:272-273 | a shape is tried exactly when it is unnamed or its qualifier occurs at the value |
| MtlParser.FirstShapeFrom | src/MtlObject.cpp:268-274 | the shape scan from `j` finds the least shape at or after `j` that is unnamed or whose qualifier compares equal, and skips only shapes that are not |
| MtlParser.FirstShape | src/MtlObject.cpp:266-276 | the first shape that is unnamed or whose qualifier compares equal at the value is the only one tried |
| MtlParser.LexShape | src/MtlObject.cpp:284-305 | a value read has the shape's type; a type without a case throws `MtlParseException`; only the 3-float case can read undefined memory |
| MtlParser.FieldValue | src/MtlObject.cpp:308-333 | only the key types with a commit case have a field, and that field has the type the case reads |
| MtlParser.Commit | src/MtlObject.cpp:307-333 | the commit switch writes only for the seven key types with a case, and then sets exactly that key's field to the value and no other field |
| MtlParser.ReplaceLast | src/MtlObject.cpp:246 | writing to `materials.back()` keeps the length and every earlier material, and replaces the last |
| MtlParser.ApplyRead | src/MtlObject.cpp:279-337 | a line commits exactly when the value was read and the commit switch has a case for the key, and then only the last material changes, with the key's field set to the value; an undefined read is the only abort; nothing else changes the list |
| MtlParser.ValuePos | src/MtlObject.cpp:263-264 | the value starts at or after the end of the matched keyword, within the line |
| MtlParser.FieldStep | src/MtlObject.cpp:263-345 | a matched field line ends in a commit, a caught exception or an invalid key type, each for that very key, or in an undefined read; only a commit changes the list, and it changes only the last material |
| MtlParser.Step | src/MtlObject.cpp:203-358 | `parseLine`: a created material is appended to the list as the constructor makes it, a commit changes only the last material and keeps the length, and every other branch leaves the list unchanged |
| MtlParser.ParseLines | src/MtlObject.cpp:126-130 | the constructor loop never shortens the list, and a fault comes from some line |
| MtlParser.ParseLinesAt | src/MtlObject.cpp:126-130 | the loop processes line `i` and then, unless it faulted, the lines after it |
| MtlParser.ReadValue | src/MtlObject.cpp:284-305 | the lexing switch dispatches to `parseParamFloat`, `parseParam3Floats` or `parseParamInt`, and throws for every other value type, as `LexShape` says |
| MtlParser.MtlObject.constructor | src/MtlObject.cpp:118-124 | an object starts with no materials before the line loop runs, also when the file does not open |
| MtlParser.MtlObject.ParseLine | src/MtlObject.cpp:203-358 | `parseLine` changes `materials` and reports the branch taken exactly as `Step` says |
| MtlParser.MtlObject.ParseKeys | src/MtlObject.cpp:250-357 | the key loop ignores the line when no entry matches, and otherwise handles the field of the first matching entry as `FieldStep` says |
| MtlParser.MtlObject.ParseField | src/MtlObject.cpp:263-345 | for a matched key, the shape loop, the `try` block and the commit switch do what `FieldStep` says |
| MtlParser.MtlObject.ParseAll | src/MtlObject.cpp:126-130 | the constructor loop feeds every line to `parseLine` in order and stops at the first fault, as `ParseLines` says |
| MtlParserProperties.NewmtlAppends | src/MtlObject.cpp:226-236 | optional characters, `newmtl`, any one character and a name append exactly one new material with that name, all earlier materials kept, whatever the list held |
| MtlParserProperties.NewmtlAloneAborts | src/MtlObject.cpp:227-232 | a line that is exactly `newmtl` after the optional characters reads past the line, and `substr` throws out of `parseLine` |
| MtlParserProperties.StepBranches | src/MtlObject.cpp:226-258 | the branches in order: a `newmtl` line creates or aborts whatever the list holds; otherwise an empty list drops the line; otherwise no matching key means the line is ignored, and a match reports the first matching key's type |
| MtlParserProperties.FieldStepOutcome | src/MtlObject.cpp:266-345 | a field commits exactly when the first selected shape lexes, and then stores that value in the key's field of the last material and changes nothing else; a throw stores nothing and tries no later shape; an undefined read stores nothing and aborts |
| MtlParserProperties.StepFrame | src/MtlObject.cpp:226-337 | a created material is appended; a commit changes only the last material, and in it only the key's field; every other outcome leaves the list unchanged |
| MtlParserProperties.NoInvalidKeyType | src/MtlObject.cpp:330-332 | the commit switch's default branch is never reached: every keyword in the table has a commit case |
| MtlParserProperties.CommitKeepsName | src/MtlObject.cpp:308-333 | no commit changes a material's name |
| MtlParserProperties.CommitDeterminedByField | src/MtlObject.cpp:308-333 | a material that differs only in the key's field, and holds the value there, is what the commit switch makes |
| MtlParserProperties.EarlierKeywordDiffers | src/MtlObject.cpp:76-110 | the first two characters of each keyword with its space differ from those of every earlier keyword |
| MtlParserProperties.EarlierKeyMisses | src/MtlObject.cpp:252-258 | no entry before `i` matches a line that starts with keyword `i` and a space |
| MtlParserProperties.KeywordFirstCharacter | src/MtlObject.cpp:76-110 | no keyword starts with an optional character or with the `n` of `newmtl` |
| MtlParserProperties.KeyLineStart | src/MtlObject.cpp:224-227 | a line that starts with a keyword is read from its first character and is not a `newmtl` line |
| MtlParserProperties.KeyLineMatches | src/MtlObject.cpp:256-257 | entry `i` matches a line that starts with its keyword and a space |
| MtlParserProperties.KeyLine | src/MtlObject.cpp:250-264 | a line that starts with keyword `i` and a space takes entry `i`, and its value starts after the optional characters that follow the space |
| MtlParserProperties.KeyLineStep | src/MtlObject.cpp:240-264 | with a material present, such a line is the field line of entry `i` |
| MtlParserProperties.UnnamedShapeFirst | src/MtlObject.cpp:268-276 | a shape list that starts with an unnamed shape selects that shape |
| MtlParserProperties.ColorShapeReadsThreeFloats | src/MtlObject.cpp:268-276 | a colour value that does not start with `spectral` is read by a 3-float shape |
| MtlParserProperties.ColorLineAt | src/MtlObject.cpp:290-320 | on a colour line not starting with `spectral`: an undefined read aborts, a caught failure stores nothing, and three converted values become the key's colour |
| MtlParserProperties.NotSpectral | src/MtlObject.cpp:272-273 | a value starting with a character other than `s` does not select `spectral` |
| MtlParserProperties.ColorLine | src/MtlObject.cpp:290-320 | `Ka`/`Kd`/`Ks`/`Tf` with three plain tokens, the first not starting with `s` (a value starting `spectral` takes the string-and-float shape and throws from the default branch instead, as `SpectralThrows` says), commits exactly when all three convert, and then the key's colour is the three values in order; otherwise it stores nothing and reports `invalid_argument` |
| MtlParserProperties.ShortColorLineAborts | src/MtlObject.cpp:170-172 | a colour line with only two converting plain tokens, the first not starting with `s`, reads the third at `data[npos]`, and the list is unchanged |
| MtlParserProperties.FirstTokenFails | src/MtlObject.cpp:167-169 | a value whose first character cannot begin a number makes the first `stof` throw `invalid_argument` |
| MtlParserProperties.QualifierNotConsumed | src/MtlObject.cpp:272-293 | `xyz` selects the first colour shape but is not consumed, so `stof` is handed `xyz...`, throws, and nothing is stored |
| MtlParserProperties.SpectralShapeSelected | src/MtlObject.cpp:268-276 | a value starting with `spectral` selects the string-and-float shape |
| MtlParserProperties.SpectralLineAt | src/MtlObject.cpp:300-304 | that shape falls into the lexing switch's default branch, which throws, and nothing is stored |
| MtlParserProperties.SpectralThrows | src/MtlObject.cpp:300-304 | the same for every colour line `K? spectral ...` |
| MtlParserProperties.DecimalStart | src/MtlObject.cpp:197 | the decimal rendering of an `int` starts with no optional character |
| MtlParserProperties.LexIntFrom | src/MtlObject.cpp:194-201 | with no optional character at the cursor, `parseParamInt` is `stoi` on the rest of the line, advancing by its consumed length |
| MtlParserProperties.LexIntReadsDecimal | src/MtlObject.cpp:194-201 | `parseParamInt` reads the decimal rendering of `n` back as `n` and stops right after it |
| MtlParserProperties.IntLineAt | src/MtlObject.cpp:295-328 | an `illum` or `Ns` line whose value reads as `n` commits `n` to the key's int field |
| MtlParserProperties.IntLine | src/MtlObject.cpp:295-328 | round trip: `illum n` or `Ns n`, with any non-digit text after `n`, commits exactly `n` to `illumination` or `specularExponent` |
| MtlParserProperties.FloatLine | src/MtlObject.cpp:285-326 | a `d` line commits exactly when `stof` converts its value, and then the dissolve is the value read; otherwise it stores nothing |
| MtlParserProperties.HaloNotConsumed | src/MtlObject.cpp:287-289 | option parsing is disabled: `d -halo ...` hands `-halo` to `stof`, which throws, and nothing is stored |
| MtlParserProperties.KeywordLastCharacter | src/MtlObject.cpp:76-110 | no keyword ends in a space |
| MtlParserProperties.IndentedByOneIgnored | src/MtlObject.cpp:256-258 | a field line indented by one optional character is ignored, because the space is tested at the absolute index `keyNameSize` |
| MtlParserProperties.IndentedDissolveStart | src/MtlObject.cpp:224-227 | in a line starting `  d `, the value is read from the `d`, and the line is not a `newmtl` line |
| MtlParserProperties.IndentedDissolveFirstKey | src/MtlObject.cpp:252-258 | in such a line, `d` is the first key that matches after the indentation |
| MtlParserProperties.IndentedDissolveValuePos | src/MtlObject.cpp:263-264 | in such a line, the value starts after the space and the optional characters that follow it |
| MtlParserProperties.IndentedDissolveMatches | src/MtlObject.cpp:224-264 | such a line is the field line of `d` matched after the indentation |
| MtlParserProperties.IndentedDissolveAccepted | src/MtlObject.cpp:256-326 | a `d` line indented by two spaces is accepted, because the absolute index tested is the second indentation space, and it stores what the unindented line stores |
| MtlDriverProperties.StepNames | src/MtlObject.cpp:226-337 | a line that does not abort adds the name of its `newmtl` line, when it is one, and changes no other material's name |
| MtlDriverProperties.ParseLinesFirst | src/MtlObject.cpp:126-130 | the loop processes the first line and then hands its result to the rest, unless that line faulted |
| MtlDriverProperties.ParseLinesAppend | src/MtlObject.cpp:126-130 | the loop over `a + b` runs `a` and then `b` from where `a` left the list, unless a line of `a` faulted |
| MtlDriverProperties.FaultLine | src/MtlObject.cpp:126-130 | when parsing stops at a fault, there is a line whose predecessors ran without fault and built the final list, and that line aborts on it |
| MtlDriverProperties.NamesFollowNewmtlLines | src/MtlObject.cpp:126-130 | without a fault, the material names are the old names followed by those of the `newmtl` lines, in file order |
| MtlDriverProperties.EarlierMaterialsKept | src/MtlObject.cpp:126-130 | the loop never removes a material: every material but the last of the starting list is kept unchanged, and the last keeps its name |
| MtlDriverProperties.OrphanLinesOnly | src/MtlObject.cpp:238-243 | lines before the first `newmtl` line leave the empty list empty and never fault |
| MtlDriverProperties.OrphanLinesDropped | src/MtlObject.cpp:238-243 | lines before the first `newmtl` line are dropped: the file parses as if they were absent |
| MtlScenarios.StofOneDecimal | src/MtlObject.cpp:169 | `stof("d.d")` is that decimal fraction |
| MtlScenarios.StofColor | src/MtlObject.cpp:169-179 | the tokens `0.a`, `0.b`, `0.c` read as `a/10`, `b/10`, `c/10` |
| MtlScenarios.CommittedStep | src/MtlObject.cpp:308-320 | a committed line leaves the list with its last material as the commit switch makes it |
| MtlScenarios.NewmtlNamed | src/MtlObject.cpp:226-236 | `newmtl name` appends a material with that name |
| MtlScenarios.ColorStep | src/MtlObject.cpp:290-320 | a colour line whose three plain tokens, the first not starting with `s`, convert to `c` stores `c` in the key's colour |
| MtlScenarios.TenthsArePlain | src/MtlObject.cpp:168-178 | `0.a` is a single token for the lexer |
| MtlScenarios.TenthsColorStep | src/MtlObject.cpp:290-320 | a colour line `0.a 0.b 0.c` stores those three tenths |
| MtlScenarios.BrickKa | src/MtlObject.cpp:309-311 | `Ka 0.1 0.2 0.3` sets the ambient colour of the only material to (0.1, 0.2, 0.3) |
| MtlScenarios.BrickKd | src/MtlObject.cpp:312-314 | `Kd 0.4 0.5 0.6` sets the diffuse colour to (0.4, 0.5, 0.6) |
| MtlScenarios.BrickIllum | src/MtlObject.cpp:321-323 | `illum 2` sets the illumination to 2 |
| MtlScenarios.BrickFile | src/MtlObject.cpp:126-130 | `newmtl brick`, `Ka 0.1 0.2 0.3`, `Kd 0.4 0.5 0.6`, `illum 2` produce one material `brick` with those colours and that illumination, every other field at its constructor value, and no fault |
| MtlScenarios.OrphanFieldFile | src/MtlObject.cpp:238-243 | `Ka 0.1 0.2 0.3`, `newmtl x` produce the one material `x`, at its defaults |
| MtlScenarios.BadKa | src/MtlObject.cpp:334-337 | `Ka 0.1 notanumber 0.3` is caught as `invalid_argument` and stores nothing |
| MtlScenarios.BadValueFile | src/MtlObject.cpp:126-130 | `newmtl y`, `Ka 0.1 notanumber 0.3` produce the material `y` with its ambient colour still black, and parsing goes on without a fault |

## Left out

- File I/O in the constructor (`ifstream`, `is_open`, `getline`, `close`): the file is given as its sequence of lines, already split.
- All `cout`/`cerr` logging, `printMaterials` and `MtlMaterial::printProperties`: they are presentation only.
- Raw pointers, `new`, the destructor and the `parent` back-pointer: the list owns its materials by value, and nothing reads `parent`.
- `mFileName`: it is only used in log messages.
- `MtlMap`: a map is a record that holds its role name. Nothing parses map options.
- The key types without a table entry (`KT_SHARPNESS`, `KT_NI`, `KT_MAP*`, `KT_DISP`, `KT_DECAL`, `KT_BUMP`, `KT_REFL`): they are declared, and `KeyType` has them, but no line can select them.
- Option modifiers (`-halo`): their parsing is commented out in the source, so only the table entry is modelled.
- `NumberConversion.DecimalPrefix`: its own contract states only when something converts and the bounds of the consumed length. The value and the exact length are pinned by `DecimalPrefixPoint` and by the three `Stof` lemmas on the next line, for those forms only.
- `NumberConversion.Stof`: its exact value and consumed length are proved only for three forms: digits followed by a non-continuation (`StofReadsInteger`), `digits.digits` followed by a non-continuation (`StofReadsFixedPoint`), and a whole token `digits.digits` with an exponent (`StofReadsScientific`). A leading sign or white space, a leading point, digits with an exponent but no point, `digits.` and an exponent followed by more text are covered only by `Stof`'s general contract: when it throws, and that the length consumed stops before a non-digit.
- `NumberConversion.Stof`: only decimal notation is read. `inf`, `nan` and hexadecimal floats are not, and neither is the `out_of_range` that `stof` throws on overflow or underflow: a result outside the normal `float` range, such as `1e-50`, makes `strtof` report a range error, which the source catches and stores nothing, while the model converts the text and commits its exact value. The value is the exact decimal value of the text, not its rounding to a 32-bit `float`.
- `MtlMaterial.NewMaterial`: the constructor leaves `transformFilter` and `dissolveHalo` uninitialised. The model gives them the fixed values `UnsetTransformFilter` and `UnsetDissolveHalo`, so nothing proved depends on an indeterminate value.
- `MtlParser.Step`: reading `data[npos]` in `parseParam3Floats` and reading past the end in `skipOptionalChars` after `newmtl` are undefined behaviour in C++. The model chooses to treat both as a fault that ends the parse. It does not model what a particular standard library happens to do there, for example a zero byte followed by a caught `out_of_range`.
- `MtlParser.MtlObject.ParseKeys`: this is the key loop of `parseLine`, written as a method of its own so that each proof stays small. The loop, its `continue` and its `break` are as in the source.
- The `keyMatched` and `valueMatched` flags: both are always set before the `break` they guard, so the loops simply stop at the first match.
