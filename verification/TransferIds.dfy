/**
 Trace addresses as comma-separated strings, parents and children found by editing
 them, and the ids of transfers: printed, recognised and parsed by three places.
 */
module TransferIds {
  import opened Options
  import opened Decimals

  // ------------------------------------------------------------------- trace addresses

  function PrintAll(trace: seq<nat>): seq<string> {
    seq(|trace|, i requires 0 <= i < |trace| => Print(trace[i]))
  }

  /** The root's trace address is the empty string. */
  function TraceToStr(trace: seq<nat>): string { Join(PrintAll(trace)) }

  function ParsePieces(pieces: seq<string>): Option<seq<nat>> {
    if pieces == [] then Some([])
    else
      var before := ParsePieces(pieces[..|pieces| - 1]);
      var last := ParseInt(pieces[|pieces| - 1]);
      if before.Some? && last.Some? then Some(before.value + [last.value]) else None
  }

  /** `None` is the ValueError of int(). */
  function TraceAsList(s: string): Option<seq<nat>> { if s == "" then Some([]) else ParsePieces(Split(s)) }

  lemma {:induction false} PiecesParse(trace: seq<nat>)
    ensures ParsePieces(PrintAll(trace)) == Some(trace)
  {
    if trace != [] {
      var n := |trace| - 1;
      PiecesParse(trace[..n]);
      assert PrintAll(trace)[..n] == PrintAll(trace[..n]);
      PrintThenParse(trace[n]);
      assert trace == trace[..n] + [trace[n]];
    }
  }

  lemma {:induction false} FirstOfJoin(pieces: seq<string>)
    requires pieces != [] && pieces[0] != ""
    ensures Join(pieces) != "" && Join(pieces)[0] == pieces[0][0]
  {
    var n := |pieces| - 1;
    if n > 0 { FirstOfJoin(pieces[..n]); }
  }

  /** No stored trace address begins with a comma. */
  lemma TraceStartsWithDigit(trace: seq<nat>)
    requires trace != []
    ensures TraceToStr(trace) != "" && IsDigit(TraceToStr(trace)[0])
  {
    var pieces := PrintAll(trace);
    assert pieces[0] == Print(trace[0]);
    FirstOfJoin(pieces);
  }

  lemma SplitOfTrace(trace: seq<nat>)
    requires trace != []
    ensures Split(TraceToStr(trace)) == PrintAll(trace) && TraceToStr(trace) != ""
  {
    var pieces := PrintAll(trace);
    forall p | p in pieces
      ensures Plain(p)
    {
      NumbersArePlain(p);
    }
    SplitOfJoin(pieces);
    TraceStartsWithDigit(trace);
  }

  /** Reading a printed trace address gives it back, the root's empty one included. */
  lemma TraceRoundTrip(trace: seq<nat>)
    ensures TraceAsList(TraceToStr(trace)) == Some(trace)
  {
    if trace != [] {
      SplitOfTrace(trace);
      PiecesParse(trace);
    }
  }

  // ----------------------------------------------------------------- parents and children

  /** The trace address the parent is looked up by, if any is. */
  function ParentOf(s: string): Option<string> {
    if ',' !in s then None
    else
      var pieces := Split(s);
      Some(Join(pieces[..|pieces| - 1]))
  }

  function ChildOf(s: string, index: nat): string { s + "," + Print(index) }

  /** As strings, going down and up again is the identity. */
  lemma ParentUndoesChild(s: string, index: nat)
    ensures ParentOf(ChildOf(s, index)) == Some(s)
  {
    NumbersArePlain(Print(index));
    SplitOfAppend(s, Print(index));
    assert (Split(s) + [Print(index)])[..|Split(s)|] == Split(s);
    JoinOfSplit(s);
    assert ',' == ChildOf(s, index)[|s|];
  }

  lemma JoinOfLonger(trace: seq<nat>, index: nat)
    requires trace != []
    ensures TraceToStr(trace + [index]) == ChildOf(TraceToStr(trace), index)
  {
    var n := |trace|;
    assert PrintAll(trace + [index])[..n] == PrintAll(trace);
  }

  /**
   The child looked up is the true child for every trace but the root's, whose
   children are stored without the leading comma.
   */
  lemma ChildIsTheChildExactlyWhen(trace: seq<nat>, index: nat)
    ensures ChildOf(TraceToStr(trace), index) == TraceToStr(trace + [index]) <==> trace != []
    ensures trace == [] ==> forall other :: ChildOf(TraceToStr(trace), index) != TraceToStr(other)
  {
    if trace == [] {
      assert ChildOf("", index)[0] == ',';
      forall other
        ensures ChildOf(TraceToStr(trace), index) != TraceToStr(other)
      {
        if other != [] { TraceStartsWithDigit(other); }
      }
    } else {
      JoinOfLonger(trace, index);
    }
  }

  /**
   The parent looked up is the true parent for every trace two deep or more; one deep,
   the true parent is the root, and none is looked up.
   */
  lemma ParentIsTheParentExactlyWhen(trace: seq<nat>)
    requires trace != []
    ensures ParentOf(TraceToStr(trace)) == Some(TraceToStr(trace[..|trace| - 1])) <==> |trace| > 1
    ensures |trace| == 1 ==> ParentOf(TraceToStr(trace)) == None
  {
    var n := |trace| - 1;
    assert trace == trace[..n] + [trace[n]];
    if n > 0 {
      JoinOfLonger(trace[..n], trace[n]);
      ParentUndoesChild(TraceToStr(trace[..n]), trace[n]);
    } else {
      assert TraceToStr(trace) == Print(trace[0]);
      NumbersArePlain(Print(trace[0]));
    }
  }

  /** A transaction's internal transactions, by stored trace address. */
  function Get<T>(rows: map<string, T>, s: string): Option<T> { if s in rows then Some(rows[s]) else None }

  function GetParent<T>(rows: map<string, T>, s: string): Option<T> {
    var parent := ParentOf(s);
    if parent.None? then None else Get(rows, parent.value)
  }

  function GetChild<T>(rows: map<string, T>, s: string, index: nat): Option<T> { Get(rows, ChildOf(s, index)) }

  ghost predicate StoredTraces<T>(rows: map<string, T>) {
    forall s :: s in rows ==> exists trace :: s == TraceToStr(trace)
  }

  /** Over stored rows: the parent and the child found are the ones the trace tree has, away from the root. */
  lemma FamilyIsFound<T>(rows: map<string, T>, trace: seq<nat>, index: nat)
    requires StoredTraces(rows)
    ensures GetChild(rows, TraceToStr(trace), index) ==
              if trace == [] then None else Get(rows, TraceToStr(trace + [index]))
    ensures GetParent(rows, TraceToStr(trace)) ==
              if |trace| <= 1 then None else Get(rows, TraceToStr(trace[..|trace| - 1]))
  {
    ChildIsTheChildExactlyWhen(trace, index);
    if trace != [] { ParentIsTheParentExactlyWhen(trace); }
  }

  // -------------------------------------------------------------------------- printing

  /** A row of the transfers query. `hash` is the transaction hash with its 0x. */
  datatype Transfer = Transfer(
    hash: string, tokenAddress: Option<string>, value: Option<nat>, tokenId: Option<nat>,
    logIndex: nat, trace: string)

  datatype Kind = EtherTransfer | Erc20Transfer | Erc721Transfer | Unknown

  function GetType(t: Transfer): Kind {
    if t.tokenAddress.None? then EtherTransfer
    else if t.value.Some? then Erc20Transfer
    else if t.tokenId.Some? then Erc721Transfer
    else Unknown
  }

  /** The rows the three tables contribute to the query. */
  function EtherRow(hash: string, value: nat, trace: string): Transfer {
    Transfer(hash, None, Some(value), None, 0, trace)
  }

  function Erc20Row(hash: string, token: string, value: nat, logIndex: nat): Transfer {
    Transfer(hash, Some(token), Some(value), None, logIndex, "")
  }

  function Erc721Row(hash: string, token: string, id: nat, logIndex: nat): Transfer {
    Transfer(hash, Some(token), None, Some(id), logIndex, "")
  }

  /** Each table's rows are told from the others', and carry the id of their own kind. */
  lemma RowsKeepTheirKind(hash: string, token: string, amount: nat, logIndex: nat, trace: string)
    requires |hash| >= 2
    ensures var ether := EtherRow(hash, amount, trace);
            var erc20, erc721 := Erc20Row(hash, token, amount, logIndex), Erc721Row(hash, token, amount, logIndex);
            && GetType(ether) == EtherTransfer && GetType(erc20) == Erc20Transfer && GetType(erc721) == Erc721Transfer
            && TransferId(ether) == "i" + hash[2..] + trace
            && TransferId(erc20) == TransferId(erc721) == "e" + hash[2..] + Print(logIndex)
  {
  }

  function TransferId(t: Transfer): string
    requires |t.hash| >= 2
  {
    if GetType(t).EtherTransfer? then "i" + t.hash[2..] + t.trace else "e" + t.hash[2..] + Print(t.logIndex)
  }

  predicate IsLowerHex(c: char) { '0' <= c <= '9' || 'a' <= c <= 'f' }

  predicate IsHex(c: char) { IsLowerHex(c) || 'A' <= c <= 'F' }

  /** What the database gives back: a 32-byte hash in lower-case hex, and a printed trace address for ether. */
  ghost predicate Stored(t: Transfer) {
    && |t.hash| == 66 && t.hash[..2] == "0x" && (forall i :: 2 <= i < 66 ==> IsLowerHex(t.hash[i]))
    && (GetType(t).EtherTransfer? ==> exists trace :: t.trace == TraceToStr(trace))
  }

  // ----------------------------------------------------------------------- recognising

  /**
   What `\d` matches in a str pattern, and what int() reads: the decimal digits of
   every script. Which characters those are, beyond the ASCII ones, depends on the
   Unicode version.
   */
  type Digits = char -> Option<nat>

  ghost predicate IsDigitTable(digits: Digits) {
    && (forall c :: digits(c).Some? ==> digits(c).value < 10)
    && (forall c :: IsDigit(c) ==> digits(c) == Some(DigitValue(c)))
    && digits(',') == None
  }

  predicate AllDigits(s: string, digits: Digits) { forall i :: 0 <= i < |s| ==> digits(s[i]).Some? }

  predicate SomeDigits(s: string, digits: Digits) { s != "" && AllDigits(s, digits) }

  /** `(\d*)(,\d+)*` over the whole tail. */
  predicate TraceTail(s: string, digits: Digits) {
    var pieces := Split(s);
    AllDigits(pieces[0], digits) && forall i :: 1 <= i < |pieces| ==> SomeDigits(pieces[i], digits)
  }

  lemma DigitsArePlain(s: string, digits: Digits)
    requires IsDigitTable(digits) && AllDigits(s, digits)
    ensures Plain(s)
  {
  }

  lemma NumbersAreDigits(s: string, digits: Digits)
    requires IsDigitTable(digits) && IsNumber(s)
    ensures SomeDigits(s, digits)
  {
    forall i | 0 <= i < |s|
      ensures digits(s[i]).Some?
    {
      assert s[i] in s;
    }
  }

  /** The same pattern read as a grammar: digits, then groups of a comma and digits. */
  function Groups(numbers: seq<string>): string {
    if numbers == [] then "" else Groups(numbers[..|numbers| - 1]) + "," + numbers[|numbers| - 1]
  }

  lemma {:induction false} GroupsAreJoined(first: string, numbers: seq<string>)
    ensures first + Groups(numbers) == Join([first] + numbers)
  {
    if numbers != [] {
      var n := |numbers| - 1;
      GroupsAreJoined(first, numbers[..n]);
      assert ([first] + numbers)[..n + 1] == [first] + numbers[..n];
      assert first + Groups(numbers) == (first + Groups(numbers[..n])) + "," + numbers[n];
    } else {
      assert [first] + numbers == [first];
    }
  }

  ghost predicate IsTailOf(s: string, first: string, numbers: seq<string>, digits: Digits) {
    && AllDigits(first, digits) && (forall i :: 0 <= i < |numbers| ==> SomeDigits(numbers[i], digits))
    && s == first + Groups(numbers)
  }

  /** Checking the pieces between the commas is matching the pattern. */
  lemma TraceTailIsThePattern(s: string, digits: Digits)
    requires IsDigitTable(digits)
    ensures TraceTail(s, digits) <==> exists first, numbers :: IsTailOf(s, first, numbers, digits)
  {
    if TraceTail(s, digits) {
      var pieces := Split(s);
      var first, numbers := pieces[0], pieces[1..];
      assert pieces == [first] + numbers;
      GroupsAreJoined(first, numbers);
      JoinOfSplit(s);
      assert IsTailOf(s, first, numbers, digits);
    }
    if exists first, numbers :: IsTailOf(s, first, numbers, digits) {
      var first, numbers :| IsTailOf(s, first, numbers, digits);
      GroupsAreJoined(first, numbers);
      var pieces := [first] + numbers;
      forall p | p in pieces
        ensures Plain(p)
      {
        DigitsArePlain(p, digits);
      }
      SplitOfJoin(pieces);
    }
  }

  predicate HashAt(id: string) { |id| >= 65 && forall i :: 1 <= i < 65 ==> IsHex(id[i]) }

  predicate IsValidId(id: string, digits: Digits) {
    && HashAt(id)
    && ((id[0] == 'e' && SomeDigits(id[65..], digits)) || (id[0] == 'i' && TraceTail(id[65..], digits)))
  }

  const LOWER_HEX: string := "0123456789abcdef"
  const HEX: string := LOWER_HEX + "ABCDEF"

  lemma LowerHexIsTheClass(c: char)
    ensures IsLowerHex(c) <==> c in LOWER_HEX
  {
    if '0' <= c <= '9' { assert LOWER_HEX[c as int - '0' as int] == c; }
    if 'a' <= c <= 'f' { assert LOWER_HEX[c as int - 'a' as int + 10] == c; }
  }

  lemma HexIsTheClass(c: char)
    ensures IsHex(c) <==> c in HEX
  {
    LowerHexIsTheClass(c);
    if 'A' <= c <= 'F' { assert "ABCDEF"[c as int - 'A' as int] == c; }
  }

  /** A letter, 64 hex digits, and a tail of that letter's pattern. */
  ghost predicate Matches(id: string, kind: char, hash: string, tail: string, digits: Digits) {
    && id == [kind] + hash + tail && |hash| == 64 && (forall c :: c in hash ==> c in HEX)
    && (|| (kind == 'e' && SomeDigits(tail, digits))
        || (kind == 'i' && exists first, numbers :: IsTailOf(tail, first, numbers, digits)))
  }

  /** What is recognised is what the two patterns match. */
  lemma ValidIdsAreThePatterns(id: string, digits: Digits)
    requires IsDigitTable(digits)
    ensures IsValidId(id, digits) <==> exists kind, hash, tail :: Matches(id, kind, hash, tail, digits)
  {
    if IsValidId(id, digits) {
      var hash, tail := id[1..65], id[65..];
      forall c | c in hash
        ensures c in HEX
      {
        HexIsTheClass(c);
      }
      TraceTailIsThePattern(tail, digits);
      assert id == [id[0]] + hash + tail;
      assert Matches(id, id[0], hash, tail, digits);
    }
    if exists kind, hash, tail :: Matches(id, kind, hash, tail, digits) {
      var kind, hash, tail :| Matches(id, kind, hash, tail, digits);
      TraceTailIsThePattern(tail, digits);
      assert id[1..65] == hash && id[65..] == tail;
      forall i | 1 <= i < 65
        ensures IsHex(id[i])
      {
        assert id[i] == hash[i - 1];
        HexIsTheClass(id[i]);
      }
    }
  }

  // ---------------------------------------------------------------------------- parsing

  datatype Query = ByTrace(hash: string, trace: string) | ByLogIndex(hash: string, logIndex: nat) | NotANumber

  /** The digits of any script, in ASCII. */
  function InAscii(s: string, digits: Digits): (r: string)
    requires AllDigits(s, digits) && forall i :: 0 <= i < |s| ==> digits(s[i]).value < 10
    ensures |r| == |s| && forall c :: c in r ==> IsDigit(c)
  {
    seq(|s|, i requires 0 <= i < |s| && digits(s[i]).Some? && digits(s[i]).value < 10 => DigitOf(digits(s[i]).value))
  }

  /** int() of digits; `None` is the ValueError. */
  function ReadInt(s: string, digits: Digits): Option<nat>
    requires forall c :: digits(c).Some? ==> digits(c).value < 10
  {
    if SomeDigits(s, digits) then Some(Value(InAscii(s, digits))) else None
  }

  lemma ReadsAsciiAsWritten(s: string, digits: Digits)
    requires IsDigitTable(digits) && IsNumber(s)
    ensures ReadInt(s, digits) == ParseInt(s)
  {
    NumbersAreDigits(s, digits);
    forall i | 0 <= i < |s|
      ensures InAscii(s, digits)[i] == s[i]
    {
      assert s[i] in s;
      DigitIsItsValue(s[i]);
    }
    assert InAscii(s, digits) == s;
  }

  function ParseId(id: string, digits: Digits): Query
    requires |id| >= 65 && forall c :: digits(c).Some? ==> digits(c).value < 10
  {
    if id[0] == 'i' then ByTrace(id[1..65], id[65..])
    else
      var index := ReadInt(id[65..], digits);
      if index.Some? then ByLogIndex(id[1..65], index.value) else NotANumber
  }

  /** What the id of a transfer asks for. */
  function QueryFor(t: Transfer): Query
    requires |t.hash| == 66
  {
    if GetType(t).EtherTransfer? then ByTrace(t.hash[2..], t.trace) else ByLogIndex(t.hash[2..], t.logIndex)
  }

  lemma StoredTraceIsTail(trace: seq<nat>, digits: Digits)
    requires IsDigitTable(digits)
    ensures TraceTail(TraceToStr(trace), digits)
  {
    if trace != [] {
      SplitOfTrace(trace);
      forall p | p in PrintAll(trace)
        ensures SomeDigits(p, digits)
      {
        NumbersAreDigits(p, digits);
      }
    }
  }

  /** Every printed id is recognised, and is parsed into a query for its own transfer. */
  lemma PrintedIdsParseBack(t: Transfer, digits: Digits)
    requires Stored(t) && IsDigitTable(digits)
    ensures IsValidId(TransferId(t), digits) && ParseId(TransferId(t), digits) == QueryFor(t)
  {
    var id := TransferId(t);
    assert id[1..65] == t.hash[2..];
    forall i | 1 <= i < 65
      ensures IsHex(id[i])
    {
      assert id[i] == t.hash[i + 1];
    }
    if GetType(t).EtherTransfer? {
      assert id[65..] == t.trace;
      var trace :| t.trace == TraceToStr(trace);
      StoredTraceIsTail(trace, digits);
    } else {
      assert id[65..] == Print(t.logIndex);
      PrintThenParse(t.logIndex);
      NumbersAreDigits(Print(t.logIndex), digits);
      ReadsAsciiAsWritten(Print(t.logIndex), digits);
    }
  }

  const ASCII_ONLY: Digits := (c: char) => if IsDigit(c) then Some(DigitValue(c)) else None

  lemma SameTail(hash: string, hash': string)
    requires |hash| == |hash'| == 66 && hash[..2] == hash'[..2] && hash[2..] == hash'[2..]
    ensures hash == hash'
  {
    assert hash == hash[..2] + hash[2..] && hash' == hash'[..2] + hash'[2..];
  }

  /** So no two transfers share an id unless they are the same one: same kind, transaction and place in it. */
  lemma IdsAreUnique(t: Transfer, t': Transfer)
    requires Stored(t) && Stored(t') && TransferId(t) == TransferId(t')
    ensures t.hash == t'.hash && (t.tokenAddress.None? <==> t'.tokenAddress.None?)
    ensures if t.tokenAddress.None? then t.trace == t'.trace else t.logIndex == t'.logIndex
  {
    PrintedIdsParseBack(t, ASCII_ONLY);
    PrintedIdsParseBack(t', ASCII_ONLY);
    assert QueryFor(t) == QueryFor(t');
    SameTail(t.hash, t'.hash);
  }

  /** A recognised id never fails to parse, whatever script its digits are of. */
  lemma ValidIdsParse(id: string, digits: Digits)
    requires IsDigitTable(digits) && IsValidId(id, digits)
    ensures ParseId(id, digits) != NotANumber
    ensures ParseId(id, digits).ByTrace? <==> id[0] == 'i'
  {
  }

  /** Number pieces in ASCII digits without leading zeros, and no empty first piece. */
  predicate CanonicalTail(id: string)
    requires |id| >= 65
  {
    var tail := id[65..];
    if id[0] == 'e' then Canonical(tail)
    else tail == "" || forall p :: p in Split(tail) ==> Canonical(p)
  }

  predicate LowerHash(id: string)
    requires |id| >= 65
  {
    forall i :: 1 <= i < 65 ==> IsLowerHex(id[i])
  }

  ghost predicate IsPrinted(id: string) { exists t :: Stored(t) && TransferId(t) == id }

  lemma CanonicalPiecesPrint(pieces: seq<string>, trace: seq<nat>)
    requires |trace| == |pieces| && forall i :: 0 <= i < |pieces| ==>
        Canonical(pieces[i]) && trace[i] == Value(pieces[i])
    ensures PrintAll(trace) == pieces
  {
    forall i | 0 <= i < |pieces|
      ensures PrintAll(trace)[i] == pieces[i]
    {
      PrintsBackExactlyWhen(pieces[i]);
    }
  }

  lemma PrintedHashIsLower(t: Transfer)
    requires Stored(t)
    ensures LowerHash(TransferId(t))
  {
    var id := TransferId(t);
    assert forall i :: 1 <= i < 65 ==> id[i] == t.hash[i + 1];
  }

  lemma PrintedTailIsCanonical(t: Transfer)
    requires Stored(t)
    ensures CanonicalTail(TransferId(t))
  {
    var id := TransferId(t);
    if GetType(t).EtherTransfer? {
      assert id[65..] == t.trace;
      var trace :| t.trace == TraceToStr(trace);
      if trace != [] {
        SplitOfTrace(trace);
        forall p | p in Split(t.trace)
          ensures Canonical(p)
        {
          var i :| 0 <= i < |trace| && PrintAll(trace)[i] == p;
          PrintThenParse(trace[i]);
        }
      }
    } else {
      assert id[65..] == Print(t.logIndex);
      PrintThenParse(t.logIndex);
    }
  }

  /** The trace a canonical tail is the print of. */
  lemma CanonicalTraceIsPrinted(tail: string) returns (trace: seq<nat>)
    requires tail == "" || forall p :: p in Split(tail) ==> Canonical(p)
    ensures tail == TraceToStr(trace)
  {
    if tail == "" { return []; }
    var pieces := Split(tail);
    assert forall i :: 0 <= i < |pieces| ==> pieces[i] in pieces;
    trace := seq(|pieces|, i requires 0 <= i < |pieces| && Canonical(pieces[i]) => Value(pieces[i]));
    CanonicalPiecesPrint(pieces, trace);
    JoinOfSplit(tail);
  }

  lemma CanonicalIdIsPrinted(id: string, digits: Digits)
    requires IsValidId(id, digits) && CanonicalTail(id) && LowerHash(id)
    ensures IsPrinted(id)
  {
    var hash, tail := "0x" + id[1..65], id[65..];
    assert id == [id[0]] + id[1..65] + tail && hash[2..] == id[1..65] && hash[..2] == "0x";
    assert forall i :: 2 <= i < 66 ==> hash[i] == id[i - 1];
    if id[0] == 'e' {
      ParseThenPrint(tail);
      var t := Transfer(hash, Some(""), Some(0), None, Value(tail), "");
      assert TransferId(t) == id;
    } else {
      var trace := CanonicalTraceIsPrinted(tail);
      var t := Transfer(hash, None, Some(0), None, 0, tail);
      assert TransferId(t) == id;
    }
  }

  /**
   The recognisers accept more than is ever printed: upper-case hashes, digits of other
   scripts, numbers with leading zeros, and a trace that begins with a comma. A
   recognised id is some transfer's exactly when it has none of them.
   */
  lemma ValidIdIsPrintedExactlyWhen(id: string, digits: Digits)
    requires IsDigitTable(digits) && IsValidId(id, digits)
    ensures IsPrinted(id) <==> CanonicalTail(id) && LowerHash(id)
  {
    if IsPrinted(id) {
      var t :| Stored(t) && TransferId(t) == id;
      PrintedTailIsCanonical(t);
      PrintedHashIsLower(t);
    }
    if CanonicalTail(id) && LowerHash(id) { CanonicalIdIsPrinted(id, digits); }
  }

  // ------------------------------------------------------- recognised and never printed

  /** The id of an event or a trace of some transaction: its hash is one hex digit, repeated. */
  function IdWith(kind: char, hex: char, tail: string): string { [kind] + seq(64, _ => hex) + tail }

  lemma IdParts(kind: char, hex: char, tail: string)
    requires IsHex(hex)
    ensures var id := IdWith(kind, hex, tail);
            && HashAt(id) && id[0] == kind && id[65..] == tail && id[1..65] == seq(64, _ => hex) && id[1] == hex
  {
  }

  /** A leading zero asks for the same transfer as the id without it. */
  lemma LeadingZeroIsRecognised(digits: Digits)
    requires IsDigitTable(digits)
    ensures IsValidId(IdWith('e', 'a', "01"), digits) && !IsPrinted(IdWith('e', 'a', "01"))
    ensures ParseId(IdWith('e', 'a', "01"), digits) == ParseId(IdWith('e', 'a', "1"), digits)
  {
    IdParts('e', 'a', "01");
    IdParts('e', 'a', "1");
    ValuesOfOne();
    NumbersAreDigits("01", digits);
    ReadsAsciiAsWritten("01", digits);
    ReadsAsciiAsWritten("1", digits);
    ValidIdIsPrintedExactlyWhen(IdWith('e', 'a', "01"), digits);
  }

  lemma ValuesOfOne()
    ensures IsNumber("01") && IsNumber("1") && Value("01") == 1 == Value("1") && !Canonical("01")
  {
    assert "01"[..1] == "0" && "0"[..0] == "" && "1"[..0] == "";
    assert Value("0") == 0;
  }

  /** An upper-case hash, on an id that is otherwise fine. */
  lemma UpperCaseHashIsRecognised(digits: Digits)
    requires IsDigitTable(digits)
    ensures IsValidId(IdWith('e', 'A', "1"), digits) && !IsPrinted(IdWith('e', 'A', "1"))
    ensures CanonicalTail(IdWith('e', 'A', "1"))
  {
    IdParts('e', 'A', "1");
    ValuesOfOne();
    NumbersAreDigits("1", digits);
    ValidIdIsPrintedExactlyWhen(IdWith('e', 'A', "1"), digits);
  }

  /** A digit of another script, which reads as the same log index. */
  lemma ForeignDigitIsRecognised(digits: Digits, three: char)
    requires IsDigitTable(digits) && digits(three) == Some(3) && !IsDigit(three)
    ensures IsValidId(IdWith('e', 'a', [three]), digits) && !IsPrinted(IdWith('e', 'a', [three]))
    ensures ParseId(IdWith('e', 'a', [three]), digits) == ParseId(IdWith('e', 'a', "3"), digits)
  {
    IdParts('e', 'a', [three]);
    IdParts('e', 'a', "3");
    assert three in [three];
    ValidIdIsPrintedExactlyWhen(IdWith('e', 'a', [three]), digits);
    NumbersAreDigits("3", digits);
    assert digits('3') == Some(3);
    assert InAscii([three], digits) == InAscii("3", digits);
  }

  lemma PiecesOfLeadingComma(digits: Digits)
    requires IsDigitTable(digits)
    ensures Split(",0") == ["", "0"] && TraceTail(",0", digits)
  {
    SplitOfAppend("", "0");
    assert "" + "," + "0" == ",0";
    assert [""] + ["0"] == ["", "0"];
    assert IsNumber("0");
    NumbersAreDigits("0", digits);
  }

  /** A leading comma asks for a trace that is never stored. */
  lemma LeadingCommaIsRecognised(digits: Digits)
    requires IsDigitTable(digits)
    ensures IsValidId(IdWith('i', 'a', ",0"), digits) && !IsPrinted(IdWith('i', 'a', ",0"))
  {
    var id := IdWith('i', 'a', ",0");
    IdParts('i', 'a', ",0");
    PiecesOfLeadingComma(digits);
    assert Split(",0")[0] == "" && "" in Split(",0") && !Canonical("");
    ValidIdIsPrintedExactlyWhen(id, digits);
  }
}
