/** A session: the committed database, and this transaction's own view of it. */
module Database {
  import opened Records

  class Session {
    var committed: Db

    var now: Time
    var recipients: map<Id, Msisdn>
    var chart: set<Currency>
    var transfers: seq<Transfer>
    var journals: seq<Journal>
    var tasks: seq<Task>
    var runs: nat
    var keys: map<Id, KeyRow>

    /** Committed rows plus this transaction's own writes. */
    function Work(): Db
      reads this
    {
      Db(now, recipients, chart, transfers, journals, tasks, runs, keys)
    }

    constructor (db: Db)
      ensures committed == db && Work() == db
    {
      committed := db;
      now, recipients, chart := db.now, db.recipients, db.chart;
      transfers, journals, tasks := db.transfers, db.journals, db.tasks;
      runs, keys := db.runs, db.keys;
    }

    method Commit()
      modifies this
      ensures committed == old(Work()) && Work() == old(Work())
    {
      committed := Work();
    }

    method Rollback()
      modifies this
      ensures committed == old(committed) && Work() == old(committed)
    {
      now, recipients, chart := committed.now, committed.recipients, committed.chart;
      transfers, journals, tasks := committed.transfers, committed.journals, committed.tasks;
      runs, keys := committed.runs, committed.keys;
    }
  }
}
