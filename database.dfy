/**
 * The relational store the views read and write: one map field per table and
 * the id counter. `transaction.atomic` is modelled by taking `State()` when the
 * block is entered and calling `Restore` with it when an exception leaves the
 * block; an early `return` inside the block simply keeps what was written.
 * The id counter is a database sequence and is not rolled back.
 */
module Database {
  import opened Models

  class Db {
    var properties: set<Id>
    var roomTypes: map<Id, RoomType>
    var groups: map<Id, RoomGroup>
    var beds: map<Id, Bed>
    var users: map<Id, User>
    var bookings: map<Id, Booking>
    var payments: map<Id, Payment>
    var nextId: nat

    /** The contents of all tables. */
    function State(): Tables
      reads this
    {
      Tables(properties, roomTypes, groups, beds, users, bookings, payments)
    }

    ghost predicate Valid()
      reads this
    {
      WellFormed(State(), nextId)
    }

    /** A database holding the given properties and users and nothing else. */
    constructor (props: set<Id>, people: map<Id, User>, firstId: nat)
      ensures Valid()
      ensures State() == Tables(props, map[], map[], map[], people, map[], map[])
      ensures nextId == firstId
    {
      properties, roomTypes, groups, beds := props, map[], map[], map[];
      users, bookings, payments, nextId := people, map[], map[], firstId;
    }

    /** Rolls every table back to `t`; the id counter keeps its value. */
    method Restore(t: Tables)
      modifies this
      ensures State() == t && nextId == old(nextId)
    {
      properties, roomTypes, groups, beds := t.properties, t.roomTypes, t.groups, t.beds;
      users, bookings, payments := t.users, t.bookings, t.payments;
    }

    /** Draws the next row id from the sequence. */
    method FreshId() returns (id: Id)
      modifies this`nextId
      ensures id == old(nextId) && nextId == id + 1
    {
      id := nextId;
      nextId := nextId + 1;
    }
  }
}
