/** The built-in board descriptor table and its lookups. Only the parts of
    a descriptor the rest of the model reads are kept: identity, name,
    description, manufacturer and the GPIO pins with their names. */
module Boards {
  import opened Wrappers
  import opened Strings

  datatype BoardPin = BoardPin(name: string, gpio: nat)

  datatype BoardDescriptor = BoardDescriptor(
    id: string, name: string, description: string, manufacturer: string, pins: seq<BoardPin>)

  const Esp32 := BoardDescriptor("esp32", "ESP32",
    "ESP32 WROOM-32 development board with WiFi and Bluetooth", "Espressif",
    [BoardPin("GPIO2", 2), BoardPin("GPIO4", 4), BoardPin("GPIO5", 5)])

  const Esp32S2 := BoardDescriptor("esp32-s2", "ESP32-S2",
    "ESP32-S2 development board with WiFi and enhanced security features", "Espressif",
    [BoardPin("GPIO1", 1), BoardPin("GPIO2", 2)])

  const Esp32S3 := BoardDescriptor("esp32-s3", "ESP32-S3",
    "ESP32-S3 development board with WiFi, Bluetooth LE, and AI acceleration", "Espressif",
    [BoardPin("GPIO1", 1), BoardPin("GPIO2", 2)])

  const Esp32C3 := BoardDescriptor("esp32-c3", "ESP32-C3",
    "ESP32-C3 RISC-V development board with WiFi and Bluetooth LE", "Espressif",
    [BoardPin("GPIO1", 1), BoardPin("GPIO2", 2)])

  datatype TableEntry = TableEntry(key: string, board: BoardDescriptor)

  /** `BOARD_DESCRIPTORS`, in its key order. */
  const BoardTable: seq<TableEntry> := [
    TableEntry("esp32", Esp32), TableEntry("esp32-s2", Esp32S2),
    TableEntry("esp32-s3", Esp32S3), TableEntry("esp32-c3", Esp32C3)]

  function FindKey(t: seq<TableEntry>, id: string): (r: Option<BoardDescriptor>)
    ensures r.None? <==> forall i :: 0 <= i < |t| ==> t[i].key != id
    ensures r.Some? ==> exists i :: 0 <= i < |t| && t[i].key == id && t[i].board == r.value
  {
    if t == [] then None
    else if t[0].key == id then Some(t[0].board)
    else (var r := FindKey(t[1..], id); assert r.Some? ==> t[1..][0..] == t[1..]; r)
  }

  /** `getBoardDescriptor(id)`: the descriptor stored under `id`, if any. */
  function GetBoardDescriptor(id: string): (r: Option<BoardDescriptor>)
    ensures r.None? <==> id !in GetBoardIds()
    ensures r.Some? ==> r.value.id == id && r.value in GetAllBoardDescriptors()
  {
    FindKey(BoardTable, id)
  }

  /** `getAllBoardDescriptors()`: the table's values, in key order. */
  function GetAllBoardDescriptors(): (r: seq<BoardDescriptor>)
    ensures |r| == |BoardTable| && forall i :: 0 <= i < |r| ==> r[i] == BoardTable[i].board
  {
    seq(|BoardTable|, i requires 0 <= i < |BoardTable| => BoardTable[i].board)
  }

  /** `getBoardIds()`: the table's keys, in order. */
  function GetBoardIds(): (r: seq<string>)
    ensures |r| == |BoardTable| && forall i :: 0 <= i < |r| ==> r[i] == BoardTable[i].key
  {
    seq(|BoardTable|, i requires 0 <= i < |BoardTable| => BoardTable[i].key)
  }

  /** The ids are exactly the four ESP32 families, in table order, and each
      descriptor's own id is the key it is stored under. */
  lemma BoardTableShape()
    ensures GetBoardIds() == ["esp32", "esp32-s2", "esp32-s3", "esp32-c3"]
    ensures |GetAllBoardDescriptors()| == |GetBoardIds()|
    ensures forall i :: 0 <= i < |GetBoardIds()| ==> GetAllBoardDescriptors()[i].id == GetBoardIds()[i]
  {
  }

  function FindByName(boards: seq<BoardDescriptor>, name: string): (r: Option<BoardDescriptor>)
    ensures r.None? <==> forall i :: 0 <= i < |boards| ==> AsciiLower(boards[i].name) != AsciiLower(name)
    ensures r.Some? ==> exists i :: 0 <= i < |boards| && boards[i] == r.value
                                    && AsciiLower(r.value.name) == AsciiLower(name)
                                    && forall j :: 0 <= j < i ==> AsciiLower(boards[j].name) != AsciiLower(name)
  {
    if boards == [] then None
    else if AsciiLower(boards[0].name) == AsciiLower(name) then Some(boards[0])
    else
      var r := FindByName(boards[1..], name);
      if r.Some? then
        var i :| 0 <= i < |boards[1..]| && boards[1..][i] == r.value
                 && AsciiLower(r.value.name) == AsciiLower(name)
                 && forall j :: 0 <= j < i ==> AsciiLower(boards[1..][j].name) != AsciiLower(name);
        assert boards[i + 1] == r.value;
        assert forall j :: 0 <= j < i + 1 ==> AsciiLower(boards[j].name) != AsciiLower(name);
        r
      else r
  }

  /** `findBoardByName(name)`: the first descriptor whose name equals `name`
      ignoring case. */
  function FindBoardByName(name: string): (r: Option<BoardDescriptor>)
    ensures r.None? <==> forall i :: 0 <= i < |BoardTable| ==> AsciiLower(BoardTable[i].board.name) != AsciiLower(name)
    ensures r.Some? ==> AsciiLower(r.value.name) == AsciiLower(name) && r.value in GetAllBoardDescriptors()
  {
    FindByName(GetAllBoardDescriptors(), name)
  }

  lemma LowerEsp(s: string, t: string)
    requires |s| == |t| && forall i :: 0 <= i < |s| ==> AsciiLowerChar(s[i]) == t[i]
    ensures AsciiLower(s) == t
  {
  }

  /** The lower-cased names of the table, in order. */
  lemma LowerNames()
    ensures AsciiLower(Esp32.name) == "esp32" && AsciiLower(Esp32S2.name) == "esp32-s2"
    ensures AsciiLower(Esp32S3.name) == "esp32-s3" && AsciiLower(Esp32C3.name) == "esp32-c3"
  {
    assert AsciiLowerChar('E') == 'e' && AsciiLowerChar('S') == 's' && AsciiLowerChar('P') == 'p';
    assert AsciiLowerChar('C') == 'c' && AsciiLowerChar('3') == '3' && AsciiLowerChar('2') == '2';
    assert AsciiLowerChar('-') == '-';
    LowerEsp("ESP32", "esp32");
    LowerEsp("ESP32-S2", "esp32-s2");
    LowerEsp("ESP32-S3", "esp32-s3");
    LowerEsp("ESP32-C3", "esp32-c3");
  }

  /** Board names are distinct ignoring case, so a name finds its own board. */
  lemma FindBoardByOwnName(i: nat, name: string)
    requires i < |BoardTable| && AsciiLower(name) == AsciiLower(BoardTable[i].board.name)
    ensures FindBoardByName(name) == Some(BoardTable[i].board)
  {
    LowerNames();
    var lower := ["esp32", "esp32-s2", "esp32-s3", "esp32-c3"];
    assert forall j :: 0 <= j < |BoardTable| ==> AsciiLower(BoardTable[j].board.name) == lower[j];
    var r := FindBoardByName(name);
    assert r.Some?;
    var boards := GetAllBoardDescriptors();
    var k :| 0 <= k < |boards| && boards[k] == r.value && AsciiLower(r.value.name) == AsciiLower(name);
    assert lower[k] == lower[i];
  }

  lemma BoardIdExamples()
    ensures GetBoardDescriptor("esp32") == Some(Esp32)
    ensures GetBoardDescriptor("nonexistent").None?
  {
    assert GetBoardIds()[0] == "esp32";
    assert "nonexistent"[0] == 'n';
    assert forall i :: 0 <= i < |BoardTable| ==> BoardTable[i].key[0] == 'e';
  }

  lemma BoardNameExamples()
    ensures FindBoardByName("esp32") == Some(Esp32)
    ensures FindBoardByName("ESP32-S3") == Some(Esp32S3)
  {
    LowerNames();
    LowerEsp("esp32", "esp32");
    FindBoardByOwnName(0, "esp32");
    FindBoardByOwnName(2, "ESP32-S3");
  }

  lemma UnknownBoardName()
    ensures FindBoardByName("Nonexistent Board").None?
  {
    var n := "Nonexistent Board";
    assert AsciiLower(n)[0] == 'n';
    forall i | 0 <= i < |BoardTable| ensures AsciiLower(BoardTable[i].board.name) != AsciiLower(n) {
      assert BoardTable[i].board.name[0] == 'E';
      assert AsciiLower(BoardTable[i].board.name)[0] == 'e';
    }
  }
}
