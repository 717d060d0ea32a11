/** Worked examples of the serialiser's output on concrete records. */
module CsvExamples {
  import opened Strings
  import opened Csv

  /** A history of [8, 10] is written "8|10". */
  lemma ExampleHistory()
    ensures HistoryText([8, 10]) == "8|10"
  {
  }

  /** The record A1 (system 10, counted 8 then 10, matching) as a CSV row. */
  lemma ExampleRow()
    ensures Row(Record("A1", 10, 8, 10, 0, "MATCH", [8, 10])) == "\"A1\",10,8,10,0,\"MATCH\",\"8|10\""
  {
    var r := Record("A1", 10, 8, 10, 0, "MATCH", [8, 10]);
    assert IntToString(10) == "10";
    assert IntToString(8) == "8";
    assert IntToString(0) == "0";
    ExampleHistory();
    assert Row(r) == "\"" + "A1" + "\"," + "10" + "," + "8" + "," + "10" + "," + "0" + ",\"" + "MATCH" + "\",\"" + "8|10" + "\"";
    ExampleRowText();
  }

  lemma ExampleRowText()
    ensures "\"" + "A1" + "\"," + "10" + "," + "8" + "," + "10" + "," + "0" + ",\"" + "MATCH" + "\",\"" + "8|10" + "\""
         == "\"A1\",10,8,10,0,\"MATCH\",\"8|10\""
  {
  }

  /** One matching item counted twice: the header, then its row. */
  lemma SingleRecordExample()
    ensures GenerateCsv([Record("A1", 10, 8, 10, 0, "MATCH", [8, 10])]) == Header + "\"A1\",10,8,10,0,\"MATCH\",\"8|10\""
  {
    var r := Record("A1", 10, 8, 10, 0, "MATCH", [8, 10]);
    ExampleRow();
    assert Rows([r]) == [Row(r)];
  }

  /** A history of [150, 145] is written "150|145"; an empty history is the empty quoted field. */
  lemma HistoryExamples()
    ensures HistoryText([150, 145]) == "150|145"
    ensures Quote(HistoryText([])) == "\"\""
  {
  }
}
