/** The operation table of epolltable-internal.h and the rule it was generated from. */
module EpollTable {
  /** A set of interests: EV_READ, EV_WRITE and EV_CLOSED, or EPOLLIN, EPOLLOUT and
      EPOLLRDHUP. */
  datatype Mask = Mask(r: bool, w: bool, c: bool)

  /** What a change does to one interest: the low two bits of a *_change field. */
  datatype Act = Keep | Add | Del | AddDel

  datatype Ctl = CtlNone | CtlAdd | CtlMod | CtlDel | CtlBad

  datatype Entry = Entry(events: Mask, op: Ctl)

  const NONE := Mask(false, false, false)
  const I := Mask(true, false, false)
  const O := Mask(false, true, false)
  const IO := Mask(true, true, false)
  const R := Mask(false, false, true)
  const IR := Mask(true, false, true)
  const OR := Mask(false, true, true)
  const IOR := Mask(true, true, true)

  /** struct event_change */
  datatype Change = Change(fd: nat, was: Mask, rd: Act, wr: Act, cl: Act)

  function Code(a: Act): nat {
    match a
    case Keep => 0
    case Add => 1
    case Del => 2
    case AddDel => 3
  }

  /** EPOLL_OP_TABLE_INDEX, with EV_READ == 2, EV_WRITE == 4 and EV_CLOSED == 0x80. */
  function Index(ch: Change): nat {
    Code(ch.cl) + 4 * Code(ch.rd) + 16 * Code(ch.wr) +
    32 * ((if ch.was.r then 2 else 0) + (if ch.was.w then 4 else 0)) +
    2 * (if ch.was.c then 0x80 else 0)
  }

  /** epoll_op_table, in blocks of 64 rows that share the old events. */
  function Table(i: nat): Entry
    requires i < 512
  {
    if i < 64 then Old0(i)
    else if i < 128 then OldR(i - 64)
    else if i < 192 then OldW(i - 128)
    else if i < 256 then OldRW(i - 192)
    else if i < 320 then OldC(i - 256)
    else if i < 384 then OldCR(i - 320)
    else if i < 448 then OldCW(i - 384)
    else OldCRW(i - 448)
  }

  function Old0(i: nat): Entry {
    match i
    case 0 => Entry(NONE, CtlNone)
    case 1 => Entry(R, CtlAdd)
    case 2 => Entry(R, CtlDel)
    case 3 => Entry(NONE, CtlBad)
    case 4 => Entry(I, CtlAdd)
    case 5 => Entry(IR, CtlAdd)
    case 6 => Entry(I, CtlAdd)
    case 7 => Entry(NONE, CtlBad)
    case 8 => Entry(I, CtlDel)
    case 9 => Entry(R, CtlAdd)
    case 10 => Entry(IR, CtlDel)
    case 11 => Entry(NONE, CtlBad)
    case 12 => Entry(NONE, CtlBad)
    case 13 => Entry(NONE, CtlBad)
    case 14 => Entry(NONE, CtlBad)
    case 15 => Entry(NONE, CtlBad)
    case 16 => Entry(O, CtlAdd)
    case 17 => Entry(OR, CtlAdd)
    case 18 => Entry(O, CtlAdd)
    case 19 => Entry(NONE, CtlBad)
    case 20 => Entry(IO, CtlAdd)
    case 21 => Entry(IOR, CtlAdd)
    case 22 => Entry(IO, CtlAdd)
    case 23 => Entry(NONE, CtlBad)
    case 24 => Entry(O, CtlAdd)
    case 25 => Entry(OR, CtlAdd)
    case 26 => Entry(O, CtlAdd)
    case 27 => Entry(NONE, CtlBad)
    case 28 => Entry(NONE, CtlBad)
    case 29 => Entry(NONE, CtlBad)
    case 30 => Entry(NONE, CtlBad)
    case 31 => Entry(NONE, CtlBad)
    case 32 => Entry(O, CtlDel)
    case 33 => Entry(R, CtlAdd)
    case 34 => Entry(OR, CtlDel)
    case 35 => Entry(NONE, CtlBad)
    case 36 => Entry(I, CtlAdd)
    case 37 => Entry(IR, CtlAdd)
    case 38 => Entry(I, CtlAdd)
    case 39 => Entry(NONE, CtlBad)
    case 40 => Entry(IO, CtlDel)
    case 41 => Entry(R, CtlAdd)
    case 42 => Entry(IOR, CtlDel)
    case 43 => Entry(NONE, CtlBad)
    case 44 => Entry(NONE, CtlBad)
    case 45 => Entry(NONE, CtlBad)
    case 46 => Entry(NONE, CtlBad)
    case 47 => Entry(NONE, CtlBad)
    case 48 => Entry(NONE, CtlBad)
    case 49 => Entry(NONE, CtlBad)
    case 50 => Entry(NONE, CtlBad)
    case 51 => Entry(NONE, CtlBad)
    case 52 => Entry(NONE, CtlBad)
    case 53 => Entry(NONE, CtlBad)
    case 54 => Entry(NONE, CtlBad)
    case 55 => Entry(NONE, CtlBad)
    case 56 => Entry(NONE, CtlBad)
    case 57 => Entry(NONE, CtlBad)
    case 58 => Entry(NONE, CtlBad)
    case 59 => Entry(NONE, CtlBad)
    case 60 => Entry(NONE, CtlBad)
    case 61 => Entry(NONE, CtlBad)
    case 62 => Entry(NONE, CtlBad)
    case _ => Entry(NONE, CtlBad)
  }

  function OldR(i: nat): Entry {
    match i
    case 0 => Entry(NONE, CtlNone)
    case 1 => Entry(IR, CtlMod)
    case 2 => Entry(I, CtlMod)
    case 3 => Entry(NONE, CtlBad)
    case 4 => Entry(I, CtlMod)
    case 5 => Entry(IR, CtlMod)
    case 6 => Entry(I, CtlMod)
    case 7 => Entry(NONE, CtlBad)
    case 8 => Entry(I, CtlDel)
    case 9 => Entry(R, CtlMod)
    case 10 => Entry(IR, CtlDel)
    case 11 => Entry(NONE, CtlBad)
    case 12 => Entry(NONE, CtlBad)
    case 13 => Entry(NONE, CtlBad)
    case 14 => Entry(NONE, CtlBad)
    case 15 => Entry(NONE, CtlBad)
    case 16 => Entry(IO, CtlMod)
    case 17 => Entry(IOR, CtlMod)
    case 18 => Entry(IO, CtlMod)
    case 19 => Entry(NONE, CtlBad)
    case 20 => Entry(IO, CtlMod)
    case 21 => Entry(IOR, CtlMod)
    case 22 => Entry(IO, CtlMod)
    case 23 => Entry(NONE, CtlBad)
    case 24 => Entry(O, CtlMod)
    case 25 => Entry(OR, CtlMod)
    case 26 => Entry(O, CtlMod)
    case 27 => Entry(NONE, CtlBad)
    case 28 => Entry(NONE, CtlBad)
    case 29 => Entry(NONE, CtlBad)
    case 30 => Entry(NONE, CtlBad)
    case 31 => Entry(NONE, CtlBad)
    case 32 => Entry(I, CtlMod)
    case 33 => Entry(IR, CtlMod)
    case 34 => Entry(I, CtlMod)
    case 35 => Entry(NONE, CtlBad)
    case 36 => Entry(I, CtlMod)
    case 37 => Entry(IR, CtlMod)
    case 38 => Entry(I, CtlMod)
    case 39 => Entry(NONE, CtlBad)
    case 40 => Entry(IO, CtlDel)
    case 41 => Entry(R, CtlMod)
    case 42 => Entry(IOR, CtlDel)
    case 43 => Entry(NONE, CtlBad)
    case 44 => Entry(NONE, CtlBad)
    case 45 => Entry(NONE, CtlBad)
    case 46 => Entry(NONE, CtlBad)
    case 47 => Entry(NONE, CtlBad)
    case 48 => Entry(NONE, CtlBad)
    case 49 => Entry(NONE, CtlBad)
    case 50 => Entry(NONE, CtlBad)
    case 51 => Entry(NONE, CtlBad)
    case 52 => Entry(NONE, CtlBad)
    case 53 => Entry(NONE, CtlBad)
    case 54 => Entry(NONE, CtlBad)
    case 55 => Entry(NONE, CtlBad)
    case 56 => Entry(NONE, CtlBad)
    case 57 => Entry(NONE, CtlBad)
    case 58 => Entry(NONE, CtlBad)
    case 59 => Entry(NONE, CtlBad)
    case 60 => Entry(NONE, CtlBad)
    case 61 => Entry(NONE, CtlBad)
    case 62 => Entry(NONE, CtlBad)
    case _ => Entry(NONE, CtlBad)
  }

  function OldW(i: nat): Entry {
    match i
    case 0 => Entry(NONE, CtlNone)
    case 1 => Entry(OR, CtlMod)
    case 2 => Entry(O, CtlMod)
    case 3 => Entry(NONE, CtlBad)
    case 4 => Entry(IO, CtlMod)
    case 5 => Entry(IOR, CtlMod)
    case 6 => Entry(IO, CtlMod)
    case 7 => Entry(NONE, CtlBad)
    case 8 => Entry(O, CtlMod)
    case 9 => Entry(OR, CtlMod)
    case 10 => Entry(O, CtlMod)
    case 11 => Entry(NONE, CtlBad)
    case 12 => Entry(NONE, CtlBad)
    case 13 => Entry(NONE, CtlBad)
    case 14 => Entry(NONE, CtlBad)
    case 15 => Entry(NONE, CtlBad)
    case 16 => Entry(O, CtlMod)
    case 17 => Entry(OR, CtlMod)
    case 18 => Entry(O, CtlMod)
    case 19 => Entry(NONE, CtlBad)
    case 20 => Entry(IO, CtlMod)
    case 21 => Entry(IOR, CtlMod)
    case 22 => Entry(IO, CtlMod)
    case 23 => Entry(NONE, CtlBad)
    case 24 => Entry(O, CtlMod)
    case 25 => Entry(OR, CtlMod)
    case 26 => Entry(O, CtlMod)
    case 27 => Entry(NONE, CtlBad)
    case 28 => Entry(NONE, CtlBad)
    case 29 => Entry(NONE, CtlBad)
    case 30 => Entry(NONE, CtlBad)
    case 31 => Entry(NONE, CtlBad)
    case 32 => Entry(O, CtlDel)
    case 33 => Entry(R, CtlMod)
    case 34 => Entry(OR, CtlDel)
    case 35 => Entry(NONE, CtlBad)
    case 36 => Entry(I, CtlMod)
    case 37 => Entry(IR, CtlMod)
    case 38 => Entry(I, CtlMod)
    case 39 => Entry(NONE, CtlBad)
    case 40 => Entry(IO, CtlDel)
    case 41 => Entry(R, CtlMod)
    case 42 => Entry(IOR, CtlDel)
    case 43 => Entry(NONE, CtlBad)
    case 44 => Entry(NONE, CtlBad)
    case 45 => Entry(NONE, CtlBad)
    case 46 => Entry(NONE, CtlBad)
    case 47 => Entry(NONE, CtlBad)
    case 48 => Entry(NONE, CtlBad)
    case 49 => Entry(NONE, CtlBad)
    case 50 => Entry(NONE, CtlBad)
    case 51 => Entry(NONE, CtlBad)
    case 52 => Entry(NONE, CtlBad)
    case 53 => Entry(NONE, CtlBad)
    case 54 => Entry(NONE, CtlBad)
    case 55 => Entry(NONE, CtlBad)
    case 56 => Entry(NONE, CtlBad)
    case 57 => Entry(NONE, CtlBad)
    case 58 => Entry(NONE, CtlBad)
    case 59 => Entry(NONE, CtlBad)
    case 60 => Entry(NONE, CtlBad)
    case 61 => Entry(NONE, CtlBad)
    case 62 => Entry(NONE, CtlBad)
    case _ => Entry(NONE, CtlBad)
  }

  function OldRW(i: nat): Entry {
    match i
    case 0 => Entry(NONE, CtlNone)
    case 1 => Entry(IOR, CtlMod)
    case 2 => Entry(IO, CtlMod)
    case 3 => Entry(NONE, CtlBad)
    case 4 => Entry(IO, CtlMod)
    case 5 => Entry(IOR, CtlMod)
    case 6 => Entry(IO, CtlMod)
    case 7 => Entry(NONE, CtlBad)
    case 8 => Entry(O, CtlMod)
    case 9 => Entry(OR, CtlMod)
    case 10 => Entry(O, CtlMod)
    case 11 => Entry(NONE, CtlBad)
    case 12 => Entry(NONE, CtlBad)
    case 13 => Entry(NONE, CtlBad)
    case 14 => Entry(NONE, CtlBad)
    case 15 => Entry(NONE, CtlBad)
    case 16 => Entry(IO, CtlMod)
    case 17 => Entry(IOR, CtlMod)
    case 18 => Entry(IO, CtlMod)
    case 19 => Entry(NONE, CtlBad)
    case 20 => Entry(IO, CtlMod)
    case 21 => Entry(IOR, CtlMod)
    case 22 => Entry(IO, CtlMod)
    case 23 => Entry(NONE, CtlBad)
    case 24 => Entry(O, CtlMod)
    case 25 => Entry(OR, CtlMod)
    case 26 => Entry(O, CtlMod)
    case 27 => Entry(NONE, CtlBad)
    case 28 => Entry(NONE, CtlBad)
    case 29 => Entry(NONE, CtlBad)
    case 30 => Entry(NONE, CtlBad)
    case 31 => Entry(NONE, CtlBad)
    case 32 => Entry(I, CtlMod)
    case 33 => Entry(IR, CtlMod)
    case 34 => Entry(I, CtlMod)
    case 35 => Entry(NONE, CtlBad)
    case 36 => Entry(I, CtlMod)
    case 37 => Entry(IR, CtlMod)
    case 38 => Entry(I, CtlMod)
    case 39 => Entry(NONE, CtlBad)
    case 40 => Entry(IO, CtlDel)
    case 41 => Entry(R, CtlMod)
    case 42 => Entry(IOR, CtlDel)
    case 43 => Entry(NONE, CtlBad)
    case 44 => Entry(NONE, CtlBad)
    case 45 => Entry(NONE, CtlBad)
    case 46 => Entry(NONE, CtlBad)
    case 47 => Entry(NONE, CtlBad)
    case 48 => Entry(NONE, CtlBad)
    case 49 => Entry(NONE, CtlBad)
    case 50 => Entry(NONE, CtlBad)
    case 51 => Entry(NONE, CtlBad)
    case 52 => Entry(NONE, CtlBad)
    case 53 => Entry(NONE, CtlBad)
    case 54 => Entry(NONE, CtlBad)
    case 55 => Entry(NONE, CtlBad)
    case 56 => Entry(NONE, CtlBad)
    case 57 => Entry(NONE, CtlBad)
    case 58 => Entry(NONE, CtlBad)
    case 59 => Entry(NONE, CtlBad)
    case 60 => Entry(NONE, CtlBad)
    case 61 => Entry(NONE, CtlBad)
    case 62 => Entry(NONE, CtlBad)
    case _ => Entry(NONE, CtlBad)
  }

  function OldC(i: nat): Entry {
    match i
    case 0 => Entry(NONE, CtlNone)
    case 1 => Entry(R, CtlMod)
    case 2 => Entry(R, CtlDel)
    case 3 => Entry(NONE, CtlBad)
    case 4 => Entry(IR, CtlMod)
    case 5 => Entry(IR, CtlMod)
    case 6 => Entry(I, CtlMod)
    case 7 => Entry(NONE, CtlBad)
    case 8 => Entry(R, CtlMod)
    case 9 => Entry(R, CtlMod)
    case 10 => Entry(IR, CtlDel)
    case 11 => Entry(NONE, CtlBad)
    case 12 => Entry(NONE, CtlBad)
    case 13 => Entry(NONE, CtlBad)
    case 14 => Entry(NONE, CtlBad)
    case 15 => Entry(NONE, CtlBad)
    case 16 => Entry(OR, CtlMod)
    case 17 => Entry(OR, CtlMod)
    case 18 => Entry(O, CtlMod)
    case 19 => Entry(NONE, CtlBad)
    case 20 => Entry(IOR, CtlMod)
    case 21 => Entry(IOR, CtlMod)
    case 22 => Entry(IO, CtlMod)
    case 23 => Entry(NONE, CtlBad)
    case 24 => Entry(OR, CtlMod)
    case 25 => Entry(OR, CtlMod)
    case 26 => Entry(O, CtlMod)
    case 27 => Entry(NONE, CtlBad)
    case 28 => Entry(NONE, CtlBad)
    case 29 => Entry(NONE, CtlBad)
    case 30 => Entry(NONE, CtlBad)
    case 31 => Entry(NONE, CtlBad)
    case 32 => Entry(R, CtlMod)
    case 33 => Entry(R, CtlMod)
    case 34 => Entry(OR, CtlDel)
    case 35 => Entry(NONE, CtlBad)
    case 36 => Entry(IR, CtlMod)
    case 37 => Entry(IR, CtlMod)
    case 38 => Entry(I, CtlMod)
    case 39 => Entry(NONE, CtlBad)
    case 40 => Entry(R, CtlMod)
    case 41 => Entry(R, CtlMod)
    case 42 => Entry(IOR, CtlDel)
    case 43 => Entry(NONE, CtlBad)
    case 44 => Entry(NONE, CtlBad)
    case 45 => Entry(NONE, CtlBad)
    case 46 => Entry(NONE, CtlBad)
    case 47 => Entry(NONE, CtlBad)
    case 48 => Entry(NONE, CtlBad)
    case 49 => Entry(NONE, CtlBad)
    case 50 => Entry(NONE, CtlBad)
    case 51 => Entry(NONE, CtlBad)
    case 52 => Entry(NONE, CtlBad)
    case 53 => Entry(NONE, CtlBad)
    case 54 => Entry(NONE, CtlBad)
    case 55 => Entry(NONE, CtlBad)
    case 56 => Entry(NONE, CtlBad)
    case 57 => Entry(NONE, CtlBad)
    case 58 => Entry(NONE, CtlBad)
    case 59 => Entry(NONE, CtlBad)
    case 60 => Entry(NONE, CtlBad)
    case 61 => Entry(NONE, CtlBad)
    case 62 => Entry(NONE, CtlBad)
    case _ => Entry(NONE, CtlBad)
  }

  function OldCR(i: nat): Entry {
    match i
    case 0 => Entry(NONE, CtlNone)
    case 1 => Entry(IR, CtlMod)
    case 2 => Entry(I, CtlMod)
    case 3 => Entry(NONE, CtlBad)
    case 4 => Entry(IR, CtlMod)
    case 5 => Entry(IR, CtlMod)
    case 6 => Entry(I, CtlMod)
    case 7 => Entry(NONE, CtlBad)
    case 8 => Entry(R, CtlMod)
    case 9 => Entry(R, CtlMod)
    case 10 => Entry(IR, CtlDel)
    case 11 => Entry(NONE, CtlBad)
    case 12 => Entry(NONE, CtlBad)
    case 13 => Entry(NONE, CtlBad)
    case 14 => Entry(NONE, CtlBad)
    case 15 => Entry(NONE, CtlBad)
    case 16 => Entry(IOR, CtlMod)
    case 17 => Entry(IOR, CtlMod)
    case 18 => Entry(IO, CtlMod)
    case 19 => Entry(NONE, CtlBad)
    case 20 => Entry(IOR, CtlMod)
    case 21 => Entry(IOR, CtlMod)
    case 22 => Entry(IO, CtlMod)
    case 23 => Entry(NONE, CtlBad)
    case 24 => Entry(OR, CtlMod)
    case 25 => Entry(OR, CtlMod)
    case 26 => Entry(O, CtlMod)
    case 27 => Entry(NONE, CtlBad)
    case 28 => Entry(NONE, CtlBad)
    case 29 => Entry(NONE, CtlBad)
    case 30 => Entry(NONE, CtlBad)
    case 31 => Entry(NONE, CtlBad)
    case 32 => Entry(IR, CtlMod)
    case 33 => Entry(IR, CtlMod)
    case 34 => Entry(I, CtlMod)
    case 35 => Entry(NONE, CtlBad)
    case 36 => Entry(IR, CtlMod)
    case 37 => Entry(IR, CtlMod)
    case 38 => Entry(I, CtlMod)
    case 39 => Entry(NONE, CtlBad)
    case 40 => Entry(R, CtlMod)
    case 41 => Entry(R, CtlMod)
    case 42 => Entry(IOR, CtlDel)
    case 43 => Entry(NONE, CtlBad)
    case 44 => Entry(NONE, CtlBad)
    case 45 => Entry(NONE, CtlBad)
    case 46 => Entry(NONE, CtlBad)
    case 47 => Entry(NONE, CtlBad)
    case 48 => Entry(NONE, CtlBad)
    case 49 => Entry(NONE, CtlBad)
    case 50 => Entry(NONE, CtlBad)
    case 51 => Entry(NONE, CtlBad)
    case 52 => Entry(NONE, CtlBad)
    case 53 => Entry(NONE, CtlBad)
    case 54 => Entry(NONE, CtlBad)
    case 55 => Entry(NONE, CtlBad)
    case 56 => Entry(NONE, CtlBad)
    case 57 => Entry(NONE, CtlBad)
    case 58 => Entry(NONE, CtlBad)
    case 59 => Entry(NONE, CtlBad)
    case 60 => Entry(NONE, CtlBad)
    case 61 => Entry(NONE, CtlBad)
    case 62 => Entry(NONE, CtlBad)
    case _ => Entry(NONE, CtlBad)
  }

  function OldCW(i: nat): Entry {
    match i
    case 0 => Entry(NONE, CtlNone)
    case 1 => Entry(OR, CtlMod)
    case 2 => Entry(O, CtlMod)
    case 3 => Entry(NONE, CtlBad)
    case 4 => Entry(IOR, CtlMod)
    case 5 => Entry(IOR, CtlMod)
    case 6 => Entry(IO, CtlMod)
    case 7 => Entry(NONE, CtlBad)
    case 8 => Entry(OR, CtlMod)
    case 9 => Entry(OR, CtlMod)
    case 10 => Entry(O, CtlMod)
    case 11 => Entry(NONE, CtlBad)
    case 12 => Entry(NONE, CtlBad)
    case 13 => Entry(NONE, CtlBad)
    case 14 => Entry(NONE, CtlBad)
    case 15 => Entry(NONE, CtlBad)
    case 16 => Entry(OR, CtlMod)
    case 17 => Entry(OR, CtlMod)
    case 18 => Entry(O, CtlMod)
    case 19 => Entry(NONE, CtlBad)
    case 20 => Entry(IOR, CtlMod)
    case 21 => Entry(IOR, CtlMod)
    case 22 => Entry(IO, CtlMod)
    case 23 => Entry(NONE, CtlBad)
    case 24 => Entry(OR, CtlMod)
    case 25 => Entry(OR, CtlMod)
    case 26 => Entry(O, CtlMod)
    case 27 => Entry(NONE, CtlBad)
    case 28 => Entry(NONE, CtlBad)
    case 29 => Entry(NONE, CtlBad)
    case 30 => Entry(NONE, CtlBad)
    case 31 => Entry(NONE, CtlBad)
    case 32 => Entry(R, CtlMod)
    case 33 => Entry(R, CtlMod)
    case 34 => Entry(OR, CtlDel)
    case 35 => Entry(NONE, CtlBad)
    case 36 => Entry(IR, CtlMod)
    case 37 => Entry(IR, CtlMod)
    case 38 => Entry(I, CtlMod)
    case 39 => Entry(NONE, CtlBad)
    case 40 => Entry(R, CtlMod)
    case 41 => Entry(R, CtlMod)
    case 42 => Entry(IOR, CtlDel)
    case 43 => Entry(NONE, CtlBad)
    case 44 => Entry(NONE, CtlBad)
    case 45 => Entry(NONE, CtlBad)
    case 46 => Entry(NONE, CtlBad)
    case 47 => Entry(NONE, CtlBad)
    case 48 => Entry(NONE, CtlBad)
    case 49 => Entry(NONE, CtlBad)
    case 50 => Entry(NONE, CtlBad)
    case 51 => Entry(NONE, CtlBad)
    case 52 => Entry(NONE, CtlBad)
    case 53 => Entry(NONE, CtlBad)
    case 54 => Entry(NONE, CtlBad)
    case 55 => Entry(NONE, CtlBad)
    case 56 => Entry(NONE, CtlBad)
    case 57 => Entry(NONE, CtlBad)
    case 58 => Entry(NONE, CtlBad)
    case 59 => Entry(NONE, CtlBad)
    case 60 => Entry(NONE, CtlBad)
    case 61 => Entry(NONE, CtlBad)
    case 62 => Entry(NONE, CtlBad)
    case _ => Entry(NONE, CtlBad)
  }

  function OldCRW(i: nat): Entry {
    match i
    case 0 => Entry(NONE, CtlNone)
    case 1 => Entry(IOR, CtlMod)
    case 2 => Entry(IO, CtlMod)
    case 3 => Entry(NONE, CtlBad)
    case 4 => Entry(IOR, CtlMod)
    case 5 => Entry(IOR, CtlMod)
    case 6 => Entry(IO, CtlMod)
    case 7 => Entry(NONE, CtlBad)
    case 8 => Entry(OR, CtlMod)
    case 9 => Entry(OR, CtlMod)
    case 10 => Entry(O, CtlMod)
    case 11 => Entry(NONE, CtlBad)
    case 12 => Entry(NONE, CtlBad)
    case 13 => Entry(NONE, CtlBad)
    case 14 => Entry(NONE, CtlBad)
    case 15 => Entry(NONE, CtlBad)
    case 16 => Entry(IOR, CtlMod)
    case 17 => Entry(IOR, CtlMod)
    case 18 => Entry(IO, CtlMod)
    case 19 => Entry(NONE, CtlBad)
    case 20 => Entry(IOR, CtlMod)
    case 21 => Entry(IOR, CtlMod)
    case 22 => Entry(IO, CtlMod)
    case 23 => Entry(NONE, CtlBad)
    case 24 => Entry(OR, CtlMod)
    case 25 => Entry(OR, CtlMod)
    case 26 => Entry(O, CtlMod)
    case 27 => Entry(NONE, CtlBad)
    case 28 => Entry(NONE, CtlBad)
    case 29 => Entry(NONE, CtlBad)
    case 30 => Entry(NONE, CtlBad)
    case 31 => Entry(NONE, CtlBad)
    case 32 => Entry(IR, CtlMod)
    case 33 => Entry(IR, CtlMod)
    case 34 => Entry(I, CtlMod)
    case 35 => Entry(NONE, CtlBad)
    case 36 => Entry(IR, CtlMod)
    case 37 => Entry(IR, CtlMod)
    case 38 => Entry(I, CtlMod)
    case 39 => Entry(NONE, CtlBad)
    case 40 => Entry(R, CtlMod)
    case 41 => Entry(R, CtlMod)
    case 42 => Entry(IOR, CtlDel)
    case 43 => Entry(NONE, CtlBad)
    case 44 => Entry(NONE, CtlBad)
    case 45 => Entry(NONE, CtlBad)
    case 46 => Entry(NONE, CtlBad)
    case 47 => Entry(NONE, CtlBad)
    case 48 => Entry(NONE, CtlBad)
    case 49 => Entry(NONE, CtlBad)
    case 50 => Entry(NONE, CtlBad)
    case 51 => Entry(NONE, CtlBad)
    case 52 => Entry(NONE, CtlBad)
    case 53 => Entry(NONE, CtlBad)
    case 54 => Entry(NONE, CtlBad)
    case 55 => Entry(NONE, CtlBad)
    case 56 => Entry(NONE, CtlBad)
    case 57 => Entry(NONE, CtlBad)
    case 58 => Entry(NONE, CtlBad)
    case 59 => Entry(NONE, CtlBad)
    case 60 => Entry(NONE, CtlBad)
    case 61 => Entry(NONE, CtlBad)
    case 62 => Entry(NONE, CtlBad)
    case _ => Entry(NONE, CtlBad)
  }

  /** The interests a change asks for, given the ones it starts from. */
  function Wanted(was: Mask, rd: Act, wr: Act, cl: Act): Mask {
    Mask(rd == Add || (rd != Del && was.r), wr == Add || (wr != Del && was.w), cl == Add || (cl != Del && was.c))
  }

  /** The rule the table was generated from (make_epoll_table.py). */
  function Rule(was: Mask, rd: Act, wr: Act, cl: Act): Entry {
    if rd == AddDel || wr == AddDel || cl == AddDel then Entry(NONE, CtlBad)
    else if rd == Add || wr == Add || cl == Add then
      Entry(Wanted(was, rd, wr, cl), if was == NONE then CtlAdd else CtlMod)
    else if rd == Del || wr == Del || cl == Del then
      if Wanted(was, rd, wr, cl) != NONE then Entry(Wanted(was, rd, wr, cl), CtlMod)
      else Entry(Mask(rd == Del, wr == Del, cl == Del), CtlDel)
    else Entry(NONE, CtlNone)
  }

  lemma Old0Matches(rd: Act, wr: Act, cl: Act)
    ensures Old0(Code(cl) + 4 * Code(rd) + 16 * Code(wr)) == Rule(Mask(false, false, false), rd, wr, cl)
  {
  }

  lemma OldRMatches(rd: Act, wr: Act, cl: Act)
    ensures OldR(Code(cl) + 4 * Code(rd) + 16 * Code(wr)) == Rule(Mask(true, false, false), rd, wr, cl)
  {
  }

  lemma OldWMatches(rd: Act, wr: Act, cl: Act)
    ensures OldW(Code(cl) + 4 * Code(rd) + 16 * Code(wr)) == Rule(Mask(false, true, false), rd, wr, cl)
  {
  }

  lemma OldRWMatches(rd: Act, wr: Act, cl: Act)
    ensures OldRW(Code(cl) + 4 * Code(rd) + 16 * Code(wr)) == Rule(Mask(true, true, false), rd, wr, cl)
  {
  }

  lemma OldCMatches(rd: Act, wr: Act, cl: Act)
    ensures OldC(Code(cl) + 4 * Code(rd) + 16 * Code(wr)) == Rule(Mask(false, false, true), rd, wr, cl)
  {
  }

  lemma OldCRMatches(rd: Act, wr: Act, cl: Act)
    ensures OldCR(Code(cl) + 4 * Code(rd) + 16 * Code(wr)) == Rule(Mask(true, false, true), rd, wr, cl)
  {
  }

  lemma OldCWMatches(rd: Act, wr: Act, cl: Act)
    ensures OldCW(Code(cl) + 4 * Code(rd) + 16 * Code(wr)) == Rule(Mask(false, true, true), rd, wr, cl)
  {
  }

  lemma OldCRWMatches(rd: Act, wr: Act, cl: Act)
    ensures OldCRW(Code(cl) + 4 * Code(rd) + 16 * Code(wr)) == Rule(Mask(true, true, true), rd, wr, cl)
  {
  }

  /** All 512 rows follow the rule. */
  lemma TableMatches(ch: Change)
    ensures Index(ch) < 512
    ensures Table(Index(ch)) == Rule(ch.was, ch.rd, ch.wr, ch.cl)
  {
    hide Old0, OldR, OldW, OldRW, OldC, OldCR, OldCW, OldCRW, Rule;
    Old0Matches(ch.rd, ch.wr, ch.cl);
    OldRMatches(ch.rd, ch.wr, ch.cl);
    OldWMatches(ch.rd, ch.wr, ch.cl);
    OldRWMatches(ch.rd, ch.wr, ch.cl);
    OldCMatches(ch.rd, ch.wr, ch.cl);
    OldCRMatches(ch.rd, ch.wr, ch.cl);
    OldCWMatches(ch.rd, ch.wr, ch.cl);
    OldCRWMatches(ch.rd, ch.wr, ch.cl);
  }
}
