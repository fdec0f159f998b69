// The MySQL statements: the SELECT lock modes and the modifier flags of
// SELECT, INSERT, UPDATE and DELETE. Each class holds the base statement
// it extends.

module MySqlStatements {

  import opened Wrappers
  import opened Text
  import opened Ordered
  import opened Nodes
  import opened Casting
  import opened Dialects
  import opened Statements
  import opened Selects
  import opened Inserts
  import opened Updates
  import opened Deletes

  // ---------------------------------------------------------------------
  // SELECT locks.

  /** The lock clause stored for a lowercased mode. */
  function LockClause(mode: string): Result<string>
  {
    if mode == "update" then Ok("FOR UPDATE")
    else if mode == "share" then Ok("LOCK IN SHARE MODE")
    else Err(InvalidLockMode("MySQL", mode))
  }

  /** `lock(mode = 'update')`: the mode is lowercased, then looked up. */
  function LockFor(mode: Option<Node>): Result<string>
  {
    var m :- LockMode(mode);
    LockClause(m)
  }

  /** The default and the two accepted modes, and the error for any other
      string. */
  lemma LockModes(mode: Option<Node>)
    ensures LockFor(None) == Ok("FOR UPDATE")
    ensures LockFor(mode).Ok? <==> mode.None? || (mode.value.Str? && Lower(mode.value.s) in ["update", "share"])
    ensures mode.Some? && mode.value.Str? && Lower(mode.value.s) == "share" ==> LockFor(mode) == Ok("LOCK IN SHARE MODE")
    ensures mode.Some? && mode.value.Str? && Lower(mode.value.s) !in ["update", "share"] ==>
              LockFor(mode) == Err(InvalidLockMode("MySQL", Lower(mode.value.s)))
  {
  }

  /** Modes are matched whatever their case. */
  lemma LockCaseInsensitive(s: string)
    ensures LockFor(Some(Str(s))) == LockFor(Some(Str(Lower(s))))
  {
    LowerIdempotent(s);
  }

  // ---------------------------------------------------------------------
  // Modifier flags.

  datatype SelectOption = CalcFoundRows | Cache | NoCache | StraightJoin | HighPriority | SmallResult | BigResult | BufferResult

  function SelectKeyword(o: SelectOption): string
  {
    match o
    case CalcFoundRows => "SQL_CALC_FOUND_ROWS"
    case Cache => "SQL_CACHE"
    case NoCache => "SQL_NO_CACHE"
    case StraightJoin => "STRAIGHT_JOIN"
    case HighPriority => "HIGH_PRIORITY"
    case SmallResult => "SQL_SMALL_RESULT"
    case BigResult => "SQL_BIG_RESULT"
    case BufferResult => "SQL_BUFFER_RESULT"
  }

  datatype InsertOption = InsertHighPriority | InsertLowPriority | InsertIgnore | Delayed

  function InsertKeyword(o: InsertOption): string
  {
    match o
    case InsertHighPriority => "HIGH_PRIORITY"
    case InsertLowPriority => "LOW_PRIORITY"
    case InsertIgnore => "IGNORE"
    case Delayed => "DELAYED"
  }

  datatype UpdateOption = UpdateLowPriority | UpdateIgnore

  function UpdateKeyword(o: UpdateOption): string
  {
    match o
    case UpdateLowPriority => "LOW_PRIORITY"
    case UpdateIgnore => "IGNORE"
  }

  datatype DeleteOption = DeleteLowPriority | DeleteIgnore | Quick

  function DeleteKeyword(o: DeleteOption): string
  {
    match o
    case DeleteLowPriority => "LOW_PRIORITY"
    case DeleteIgnore => "IGNORE"
    case Quick => "QUICK"
  }

  /** Each setter has its own flag, so setting one leaves every other
      setter's flag as it was. */
  lemma KeywordsDistinct()
    ensures forall a: SelectOption, b: SelectOption :: SelectKeyword(a) == SelectKeyword(b) ==> a == b
    ensures forall a: InsertOption, b: InsertOption :: InsertKeyword(a) == InsertKeyword(b) ==> a == b
    ensures forall a: UpdateOption, b: UpdateOption :: UpdateKeyword(a) == UpdateKeyword(b) ==> a == b
    ensures forall a: DeleteOption, b: DeleteOption :: DeleteKeyword(a) == DeleteKeyword(b) ==> a == b
  {
  }

  /** A setter on a statement without flags renders its keyword right
      after the statement's own keyword, and `false` renders nothing. */
  lemma FirstFlag(flag: string, enable: Option<Node>)
    ensures FlagsSql(Put([], flag, Enable(enable))) == (if Enable(enable) then " " + flag else "")
  {
    SetNewFlag([], flag, Enable(enable));
    assert FlagsSql([]) == "";
  }

  // ---------------------------------------------------------------------

  class MySqlSelect {
    const select: Select

    constructor(d: Option<Dialect>)
      ensures fresh(select) && fresh(select.base)
      ensures select.base.dialect == d && select.base.Parts() == Common([], [], [], [], "")
      ensures select.Parts() == SelectParts(Query([], [], [], [], []), "", false, None)
    {
      select := new Select(d);
    }

    /** `lock(mode)`: an accepted mode stores its clause; any other mode is
        refused and the lock is kept. */
    method Lock(mode: Option<Node>) returns (r: Result<()>)
      modifies select`lock
      ensures LockFor(mode).Ok? ==> r == Ok(()) && select.lock == LockFor(mode).value
      ensures LockFor(mode).Err? ==> r == Err(LockFor(mode).error) && select.lock == old(select.lock)
    {
      var m :- LockMode(mode);
      if m == "update" {
        select.lock := "FOR UPDATE";
      } else if m == "share" {
        select.lock := "LOCK IN SHARE MODE";
      } else {
        return Err(InvalidLockMode("MySQL", m));
      }
      r := Ok(());
    }

    /** `calcFoundRows()`, `cache()`, `noCache()`, `straightJoin()`,
        `highPriority()`, `smallResult()`, `bigResult()`, `bufferResult()`. */
    method SetOption(o: SelectOption, enable: Option<Node>)
      modifies select.base`flags
      ensures select.base.flags == Put(old(select.base.flags), SelectKeyword(o), Enable(enable))
      ensures select.base.GetFlag(SelectKeyword(o)) == Some(Enable(enable))
      ensures forall f :: f != SelectKeyword(o) ==> select.base.GetFlag(f) == old(select.base.GetFlag(f))
    {
      var _ := select.base.SetFlag(SelectKeyword(o), enable);
    }
  }

  class MySqlInsert {
    const insert: Insert

    constructor(d: Option<Dialect>, schema: SchemaRef)
      ensures fresh(insert) && fresh(insert.base)
      ensures insert.base.dialect == d && insert.base.Parts() == Common([], [], [], [], "")
      ensures insert.schema == schema && insert.Parts() == InsertParts(Str(""), [], [])
    {
      insert := new Insert(d, schema);
    }

    /** `highPriority()`, `lowPriority()`, `ignore()`, `delayed()`. */
    method SetOption(o: InsertOption, enable: Option<Node>)
      modifies insert.base`flags
      ensures insert.base.flags == Put(old(insert.base.flags), InsertKeyword(o), Enable(enable))
      ensures insert.base.GetFlag(InsertKeyword(o)) == Some(Enable(enable))
      ensures forall f :: f != InsertKeyword(o) ==> insert.base.GetFlag(f) == old(insert.base.GetFlag(f))
    {
      var _ := insert.base.SetFlag(InsertKeyword(o), enable);
    }
  }

  class MySqlUpdate {
    const update: Update

    constructor(d: Option<Dialect>, schema: SchemaRef)
      ensures fresh(update) && fresh(update.base)
      ensures update.base.dialect == d && update.base.Parts() == Common([], [], [], [], "")
      ensures update.schema == schema && update.Parts() == UpdateParts(Str(""), [], [])
    {
      update := new Update(d, schema);
    }

    /** `lowPriority(enable = true)`, `ignore(enable = true)`. */
    method SetOption(o: UpdateOption, enable: Option<Node>)
      modifies update.base`flags
      ensures update.base.flags == Put(old(update.base.flags), UpdateKeyword(o), Enable(enable))
      ensures update.base.GetFlag(UpdateKeyword(o)) == Some(Enable(enable))
      ensures forall f :: f != UpdateKeyword(o) ==> update.base.GetFlag(f) == old(update.base.GetFlag(f))
    {
      var _ := update.base.SetFlag(UpdateKeyword(o), enable);
    }
  }

  class MySqlDelete {
    const delete: Delete

    constructor(d: Option<Dialect>, schema: SchemaRef)
      ensures fresh(delete) && fresh(delete.base)
      ensures delete.base.dialect == d && delete.base.Parts() == Common([], [], [], [], "")
      ensures delete.schema == schema && delete.Parts() == DeleteParts(Str(""), [])
    {
      delete := new Delete(d, schema);
    }

    /** `lowPriority()`, `ignore()`, `quick()`. */
    method SetOption(o: DeleteOption, enable: Option<Node>)
      modifies delete.base`flags
      ensures delete.base.flags == Put(old(delete.base.flags), DeleteKeyword(o), Enable(enable))
      ensures delete.base.GetFlag(DeleteKeyword(o)) == Some(Enable(enable))
      ensures forall f :: f != DeleteKeyword(o) ==> delete.base.GetFlag(f) == old(delete.base.GetFlag(f))
    {
      var _ := delete.base.SetFlag(DeleteKeyword(o), enable);
    }
  }
}
