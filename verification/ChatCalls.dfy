/** What posting, reading, uploading and deleting leave in the rows, and when they are refused. */
module ChatCalls {
  import opened Base
  import opened Trips
  import opened TripWrites

  /** A message is accepted exactly from the driver or manager of a trip that is not deleted, a driver still being of its
      company, if the trip has a chat, a quoted message sits in that chat and a quoted file belongs to the trip. It is
      stored last, in that chat, unread and with its quotes. */
  lemma PostingOnRows(s: State, sender: UserId, trip: TripId, replyTo: Option<MessageId>, replyDoc: Option<DocId>, now: Time)
    ensures var r := PostMessage(s, sender, trip, replyTo, replyDoc, now);
      if trip >= |s.trips| || s.trips[trip].deleted then r == Outcome(s, TripNotFound)
      else if !(sender == s.trips[trip].driver && sender in s.people && s.people[sender].company == s.trips[trip].company)
              && !(sender == s.trips[trip].manager && sender != s.trips[trip].driver)
      then r == Outcome(s, NotAllowed)
      else if forall i: nat :: !IsChat(s.sessions, trip, i) then r == Outcome(s, NoActiveSession)
      else exists i: nat :: (IsChat(s.sessions, trip, i)
        && if (replyTo.Some? ==> replyTo.value < |s.messages| && s.messages[replyTo.value].trip == trip && s.messages[replyTo.value].session == i)
              && (replyDoc.Some? ==> replyDoc.value < |s.docs| && s.docs[replyDoc.value].trip == trip)
           then r == Outcome(s.(messages := s.messages + [Message(trip, i, sender, now, false, false, replyTo, replyDoc)]), Done)
           else r == Outcome(s, ReplyNotFound))
  {
    ActiveIsTheChat(s, trip);
    hide IsChat, FindActive;
  }

  /** The message is unread, not the reader's own, and sits in a session of the trip the reader took part in. */
  ghost predicate IsToRead(s: State, trip: TripId, reader: UserId, i: nat) {
    && i < |s.messages| && !s.messages[i].isRead && s.messages[i].sender != reader && s.messages[i].session < |s.sessions|
    && var x := s.sessions[s.messages[i].session];
       x.trip == trip && (x.driver == reader || x.manager == reader)
  }

  /** The file is unread, not the reader's own, and of the trip, which is the reader's now. */
  ghost predicate IsToSee(s: State, trip: TripId, reader: UserId, i: nat) {
    && i < |s.docs| && !s.docs[i].isRead && s.docs[i].uploader != reader && s.docs[i].trip == trip
    && trip < |s.trips| && (s.trips[trip].driver == reader || s.trips[trip].manager == reader)
  }

  /** Reading a trip marks exactly those rows read; nothing else changes. */
  lemma ReadingOnRows(s: State, trip: TripId, reader: UserId)
    ensures var t := MarkRead(s, trip, reader);
      && t == s.(messages := t.messages, docs := t.docs) && |t.messages| == |s.messages| && |t.docs| == |s.docs|
      && (forall i: nat :: i < |s.messages| ==> t.messages[i] == s.messages[i].(isRead := s.messages[i].isRead || IsToRead(s, trip, reader, i)))
      && (forall i: nat :: i < |s.docs| ==> t.docs[i] == s.docs[i].(isRead := s.docs[i].isRead || IsToSee(s, trip, reader, i)))
  {
  }

  /** Files are taken from an administrator, and from anyone of the trip's company, a driver only for a trip they drive;
      never for a deleted trip. A quoted message sits in the trip, and in its chat if there is one. All files land or
      none does, each unread and with the quotes. */
  lemma UploadOnRows(s: State, who: Requester, trip: TripId, files: nat, landed: bool, replyTo: Option<MessageId>, replyDoc: Option<DocId>)
    ensures var r := Upload(s, who, trip, files, landed, replyTo, replyDoc);
      if files == 0 then r == Outcome(s, NoFiles)
      else if !(trip < |s.trips| && !s.trips[trip].deleted
                && (who.role.Admin? || (s.trips[trip].company == who.company && (who.role.Driver? ==> s.trips[trip].driver == who.id))))
      then r == Outcome(s, TripNotFound)
      else if !((replyTo.Some? ==> replyTo.value < |s.messages| && s.messages[replyTo.value].trip == trip
                                   && forall i: nat :: IsChat(s.sessions, trip, i) ==> s.messages[replyTo.value].session == i)
               && (replyDoc.Some? ==> replyDoc.value < |s.docs| && s.docs[replyDoc.value].trip == trip))
      then r == Outcome(s, ReplyNotFound)
      else if !landed then r == Outcome(s, UploadFailed)
      else
        && r.answer.Done? && r.state == s.(docs := r.state.docs) && |r.state.docs| == |s.docs| + files && r.state.docs[..|s.docs|] == s.docs
        && forall i :: |s.docs| <= i < |s.docs| + files ==> r.state.docs[i] == Doc(trip, who.id, false, false, replyTo, replyDoc)
  {
    ActiveIsTheChat(s, trip);
    hide IsChat, FindActive;
  }

  /** A file is deleted by an administrator or someone of its trip's company; a driver deletes only their own, of a trip
      they drive, drove or whose truck they are on. */
  lemma DocDeletionOnRows(s: State, doc: DocId, who: Requester)
    ensures var r := DeleteDoc(s, doc, who);
      if !(doc < |s.docs| && s.docs[doc].trip < |s.trips|
           && var trip, row := s.docs[doc].trip, s.trips[s.docs[doc].trip];
              who.role.Admin?
              || (row.company == who.company
                  && (!who.role.Driver? || row.driver == who.id
                      || (exists i :: 0 <= i < |s.sessions| && s.sessions[i].trip == trip && s.sessions[i].driver == who.id)
                      || (row.truck < |s.trucks| && s.trucks[row.truck].driver == Some(who.id)))))
      then r == Outcome(s, DocNotFound)
      else if who.role.Driver? && s.docs[doc].uploader != who.id then r == Outcome(s, NotAllowed)
      else r == Outcome(s.(docs := s.docs[doc := s.docs[doc].(deleted := true)]), Done)
  {
  }
}
