/**
 * The earlier draft of the usability tool (test.py): the same logs and consent
 * gate, but its `save_to_csv` writes the header row on every call.
 */
module UsabilityDraft {
  import opened CsvLog
  import Usability

  class DraftSession {
    var files: Store

    constructor (disk: Store)
      ensures files == disk
    {
      files := disk;
    }

    /** `save_to_csv`: header row and data row, whether or not the file exists. */
    method SaveToCsv(record: Record, path: string)
      modifies this
      ensures files == AppendWithHeader(old(files), path, record)
    {
      if path !in files {
        files := files[path := [HeaderRow(record), DataRow(record)]];
      } else {
        files := files[path := files[path] + [HeaderRow(record), DataRow(record)]];
      }
    }

    /** `load_from_csv`: reads and changes nothing. */
    method LoadFromCsv(path: string) returns (frame: Frame)
      ensures frame == Load(files, path)
    {
      if path in files && files[path] != [] {
        frame := Frame(files[path][0], files[path][1..]);
      } else {
        frame := EmptyFrame;
      }
    }

    /** Submit Consent: nothing is written unless the box is ticked. */
    method SubmitConsent(consentGiven: bool, timestamp: string)
      modifies this
      ensures !consentGiven ==> files == old(files)
      ensures consentGiven ==> files == AppendWithHeader(old(files), Usability.ConsentCsv,
                                                         Usability.ConsentRecord(timestamp))
    {
      if consentGiven {
        SaveToCsv(Usability.ConsentRecord(timestamp), Usability.ConsentCsv);
      }
    }
  }

  /** Two ticked consents on a fresh disk: the log holds a header row before each
      record, and reading it back yields the second header as a data row. */
  method TwoConsentsScenario(first: string, second: string) returns (log: seq<Row>, frame: Frame)
    ensures log == [Usability.ConsentColumns, [Text(first), Flag(true)],
                    Usability.ConsentColumns, [Text(second), Flag(true)]]
    ensures frame.columns == Usability.ConsentColumns
    ensures frame.rows == [[Text(first), Flag(true)], Usability.ConsentColumns, [Text(second), Flag(true)]]
  {
    var session := new DraftSession(map[]);
    session.SubmitConsent(true, first);
    session.SubmitConsent(true, second);
    log := session.files[Usability.ConsentCsv];
    frame := session.LoadFromCsv(Usability.ConsentCsv);
  }
}
