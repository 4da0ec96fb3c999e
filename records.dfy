/**
 * ecg_app/models.py: the closed choice lists of ECGRecord, its field defaults, the record as
 * the upload view writes and saves it, and the defaults of TrainingSession.
 */
module Records {
  import opened Wrappers

  /** `max_length` of the `predicted_category` and `status` columns. */
  const MaxLength: nat := 20

  /** ECGRecord.CATEGORY_CHOICES. */
  datatype Category = Normal | Abnormal | Mi | PostMi {
    /** The stored value. */
    function Code(): string {
      match this
      case Normal => "normal"
      case Abnormal => "abnormal"
      case Mi => "mi"
      case PostMi => "post_mi"
    }

    /** The human-readable label. */
    function Display(): string {
      match this
      case Normal => "Normal ECG"
      case Abnormal => "Abnormal Heartbeat"
      case Mi => "Myocardial Infarction"
      case PostMi => "Post MI History"
    }
  }

  /** The choices in declaration order. */
  const Categories: seq<Category> := [Normal, Abnormal, Mi, PostMi]

  function CategoryCodes(): seq<string> {
    seq(|Categories|, i requires 0 <= i < |Categories| => Categories[i].Code())
  }

  /** Reading a stored category value back; `None` for a value outside the choices. */
  function CategoryFromCode(s: string): (c: Option<Category>)
    ensures c.Some? ==> c.value.Code() == s
  {
    if s == "normal" then Some(Normal)
    else if s == "abnormal" then Some(Abnormal)
    else if s == "mi" then Some(Mi)
    else if s == "post_mi" then Some(PostMi)
    else None
  }

  /** ECGRecord.STATUS_CHOICES. */
  datatype Status = Pending | Processing | Completed | Failed {
    function Code(): string {
      match this
      case Pending => "pending"
      case Processing => "processing"
      case Completed => "completed"
      case Failed => "failed"
    }
  }

  const Statuses: seq<Status> := [Pending, Processing, Completed, Failed]

  function StatusFromCode(s: string): (st: Option<Status>)
    ensures st.Some? ==> st.value.Code() == s
  {
    if s == "pending" then Some(Pending)
    else if s == "processing" then Some(Processing)
    else if s == "completed" then Some(Completed)
    else if s == "failed" then Some(Failed)
    else None
  }

  /**
   * The category choices are closed and listed once each, in the order normal, abnormal, mi,
   * post_mi; each code is read back as its own category and fits the column.
   */
  lemma CategoryChoicesClosed()
    ensures CategoryCodes() == ["normal", "abnormal", "mi", "post_mi"]
    ensures forall c: Category :: c in Categories && |c.Code()| <= MaxLength
    ensures forall c: Category :: CategoryFromCode(c.Code()) == Some(c)
    ensures forall i, j :: 0 <= i < j < |Categories| ==> Categories[i].Code() != Categories[j].Code()
  {
    forall c: Category
      ensures c in Categories && |c.Code()| <= MaxLength
    {
      match c
      case Normal => assert Categories[0] == c;
      case Abnormal => assert Categories[1] == c;
      case Mi => assert Categories[2] == c;
      case PostMi => assert Categories[3] == c;
    }
  }

  /** The status choices are closed, each code is read back as its own status and fits the column. */
  lemma StatusChoicesClosed()
    ensures |Statuses| == 4
    ensures forall s: Status :: s in Statuses && |s.Code()| <= MaxLength
    ensures forall s: Status :: StatusFromCode(s.Code()) == Some(s)
  {
    forall s: Status
      ensures s in Statuses && |s.Code()| <= MaxLength
    {
      match s
      case Pending => assert Statuses[0] == s;
      case Processing => assert Statuses[1] == s;
      case Completed => assert Statuses[2] == s;
      case Failed => assert Statuses[3] == s;
    }
  }

  /**
   * What one `save()` of a record writes. `probabilities` and `errorMessage` are the two
   * attributes the upload view stores on a record beside the declared columns; models.py
   * declares no such columns, so as written they are never written (see Views).
   */
  datatype Row = Row(
    user: nat,
    image: string,
    notes: string,
    uploadDay: int,
    predictedCategory: string,
    confidence: Option<real>,
    status: Status,
    normalProb: real,
    abnormalProb: real,
    miProb: real,
    postMiProb: real,
    probabilities: Option<map<string, real>>,
    errorMessage: string)

  /** The record store, as the sequence of rows written to it in order. */
  class Database {
    var writes: seq<Row>

    constructor ()
      ensures writes == []
    {
      writes := [];
    }
  }

  /** One ECGRecord, with the fields the upload view reads and writes. */
  class ECGRecord {
    var user: nat
    var image: string
    var notes: string
    /** `upload_date` (set on creation), as a day number. */
    var uploadDay: int
    var predictedCategory: string
    var confidence: Option<real>
    var status: Status
    var normalProb: real
    var abnormalProb: real
    var miProb: real
    var postMiProb: real
    /** The serialised probability map, abstracted as the map it encodes. */
    var probabilities: Option<map<string, real>>
    var errorMessage: string

    /** A record made from the upload form, with every other field at its declared default. */
    constructor (user: nat, image: string, notes: string, uploadDay: int)
      ensures this.user == user && this.image == image && this.notes == notes && this.uploadDay == uploadDay
      ensures predictedCategory == "" && confidence == None && status == Completed
      ensures normalProb == 0.0 && abnormalProb == 0.0 && miProb == 0.0 && postMiProb == 0.0
      ensures probabilities == None && errorMessage == ""
    {
      this.user := user;
      this.image := image;
      this.notes := notes;
      this.uploadDay := uploadDay;
      predictedCategory := "";
      confidence := None;
      status := Completed;
      normalProb, abnormalProb, miProb, postMiProb := 0.0, 0.0, 0.0, 0.0;
      probabilities := None;
      errorMessage := "";
    }

    function Snapshot(): Row
      reads this
    {
      Row(user, image, notes, uploadDay, predictedCategory, confidence, status,
          normalProb, abnormalProb, miProb, postMiProb, probabilities, errorMessage)
    }

    /** `save()`: the record's current state is written to the store; the record is unchanged. */
    method Save(db: Database)
      modifies db
      ensures db.writes == old(db.writes) + [Snapshot()]
    {
      db.writes := db.writes + [Snapshot()];
    }
  }

  /** TrainingSession.STATUS_CHOICES: unlike a record, a session can be `running`. */
  datatype TrainingStatus = SessionPending | SessionRunning | SessionCompleted | SessionFailed {
    function Code(): string {
      match this
      case SessionPending => "pending"
      case SessionRunning => "running"
      case SessionCompleted => "completed"
      case SessionFailed => "failed"
    }
  }

  /** One TrainingSession; the metrics are null until a run reports them. */
  datatype TrainingSession = TrainingSession(
    sessionId: string,
    user: Option<nat>,
    status: TrainingStatus,
    epochs: int,
    batchSize: int,
    accuracy: Option<real>,
    loss: Option<real>,
    precision: Option<real>,
    recall: Option<real>,
    f1Score: Option<real>,
    trainingTime: Option<real>,
    errorMessage: string)

  /** A session created with only its identifier and owner given. */
  function NewTrainingSession(sessionId: string, user: Option<nat>): (s: TrainingSession)
    ensures s.sessionId == sessionId && s.user == user
    ensures s.status == SessionPending && s.status.Code() == "pending"
    ensures s.epochs == 50 && s.batchSize == 32
    ensures s.accuracy == s.loss == s.precision == s.recall == s.f1Score == s.trainingTime == None
    ensures s.errorMessage == ""
  {
    TrainingSession(sessionId, user, SessionPending, 50, 32, None, None, None, None, None, None, "")
  }
}
