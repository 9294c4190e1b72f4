# TruLiv booking, payment and bed allocation — a Dafny model

TruLiv is a property-rental platform: guests browse properties, book a bed in
a room type of a property, pay through a Razorpay payment link, and are
allotted a concrete bed when Razorpay's webhook reports the payment. This
project models that pipeline and the inventory it works on, together with the
small validators and formatters around it, and proves properties of the model.

The store is a class `Database.Db` holding one map per table (room types, room
groups (`PropertyRoomType`), beds, bookings, payments, users) and one id
sequence shared by all tables. Every `transaction.atomic` block (including the
request-wide atomicity of `ATOMIC_REQUESTS`) is a snapshot taken on entry and
restored when an exception leaves the block; an early `return` inside a block
commits what was written so far. Like a database sequence, the id counter is
not rolled back. Each operation on the store is a method whose `ensures` ties
the new state to a function of the old one; the promises of the source are
proved about those functions, and `Models.WellFormed` (the tables' foreign keys
and unique constraints, plus bed/booking occupancy consistency) is preserved
by every operation.

Modules, one per file:

- `Wrappers`, `Text`, `JsonData`: `Option`/`Result`, decimal text and Python
  string helpers, and decoded JSON values with Python's `==` and `str`.
- `Choices`, `Models`, `Database`: the enumerations, the records and their
  defaults, the table invariant, and the store.
- `Allocation`: `allocate_bed` (apps/properties/utils.py).
- `Webhook`: `RazorpayWebhookView.post`.
- `BookingFlow`: `CreateRazorpayOrderView.create` and `BookingSerializer`.
- `BedNumbers`, `Inventory`: the bed-number scheme and `_update_beds`.
- `RoomGroups`: `RoomTypeSerializer.create`, `PropertyRoomTypeSerializer`
  create/update, and the cascade of deleting a room group.
- `Decimals`: the digit checks and quantizing of DRF's `DecimalField`, shared by
  the booking amount, the room-group price and the coordinates.
- `Coordinates`: `PropertyLATandLONSerializer`.
- `TimeSlots`: the 12-hour time parsing and printing of the time-slot serializers.
- `Helpers`, `Validators`, `ModelFields`, `PhoneNumbers`, `Permissions`, `Idp`,
  `Whatsapp`: the common helpers, validators, model fields, the phone-number
  serializer, the role permission, the identity-provider client and the
  WhatsApp client.

The gateway (order and link creation, signature verification), the database
faults during allocation, the random draws of `random_n_digits` and
`random.choice`, and Twilio's send are parameters of the operations that use
them.

## Behaviour worth knowing

- The webhook keeps no record of events it has applied. It marks the payment
  paid and allocates a bed whether or not the payment was already paid, so a
  second delivery of the same event binds a second bed to the user
  (`Webhook.ReplayBindsSecondBed`).
- `allocate_bed` chooses by how many candidates each room group holds. A room
  group is the unique (property, room type) pair, and the beds `_update_beds`
  creates carry their group's room type. While that holds, all candidates lie
  in one group, the "every group holds a candidate" branch fires and the
  newest free bed is taken (`Allocation.SingleGroupForCandidates`,
  `Allocation.AllocatesNewestCandidate`). An update that moves a room group to
  another room type keeps the group's old beds with the old type
  (`RoomGroups.RetypeLeavesOldBeds`). Those beds then remain candidates for the
  old pair, so the count branch can be reached and pass over the newest
  candidate (`Allocation.MixedGroupsSkipNewest`). The random branch needs a
  candidate without a group and is never reached
  (`Allocation.SelectionIgnoresPick`).
- When the gateway answers an order request with nothing or with a
  bad-request error, the booking view returns normally. The pending booking it
  wrote is committed, and no payment refers to it
  (`BookingFlow.GatewayRefusalLeavesPendingBooking`).
- The webhook decodes the request body as UTF-8 before its `try`. A body that
  is not UTF-8 escapes the view as the framework's 500 response
  (`Webhook.Post`).

## Model

| member | source | states |
|---|---|---|
| Choices.ParseRoomTypeName | apps/properties/choices.py:11-19 | a stored room-type value parses only to the room type whose value it is |
| Choices.RoomTypeRoundTrip | apps/properties/choices.py:11-19 | each of the six "<n> occupancy" values parses back to its own room type, so the six values are distinct |
| Choices.ParseBookingStatus | apps/properties/choices.py:22-28 | a status string parses to a status exactly when it is that status's value: pending, confirmed, allotted or moved_in, and nothing else (no cancelled) |
| Choices.ParseRole | apps/properties/choices.py:31-36 | a role string parses to a role exactly when it is that role's value: guest, customer or admin |
| Choices.ParseRentalStatus | apps/properties/choices.py:39-45 | a rent status string parses exactly when it is one of pending, paid, overdue, failed |
| Models.NewRoomGroup | apps/properties/models/properties.py:113-118 | a new room group keeps its property, room type and room count, has no total capacity yet and is marked bed-available |
| Models.NewBed | apps/properties/models/properties.py:139-145 | a new bed is available, bound to no user, and carries its group, room type and bed number |
| Models.NewBooking | apps/properties/models/booking.py:22-32 | a new booking is pending, has no bed and no advance paid |
| Models.NewPayment | apps/properties/models/booking.py:51-63 | a new payment is unpaid with no payment id or signature, and records booking, order id, link id and amount |
| Models.Occupied | apps/properties/utils.py:39-41 | an occupied bed is unavailable and bound to the user; its group, room type and number are kept |
| Models.WellFormedLater | apps/properties/models/properties.py:122 | the table invariants (unique room group per property and room type, unique bed number per group, unique order id and one payment per booking, references exist, occupancy consistent) survive the id counter advancing |
| Models.WellFormedUpTo | apps/properties/models/booking.py:51-52 | the same invariants hold for any later value of the id counter |
| Models.PaymentUpdateKeepsWellFormed | apps/properties/models/booking.py:51-63 | writing payment fields other than booking and order id keeps every invariant |
| Models.BookingStatusKeepsWellFormed | apps/properties/models/booking.py:26-30 | writing a booking's status keeps every invariant |
| Models.RoleUpdateKeepsWellFormed | apps/access/models/user.py:44-48 | writing a user's role keeps every invariant |
| Database.Db.constructor | apps/properties/models/properties.py:98-149 | a store holding only properties and users satisfies every table invariant |
| Database.Db.Restore | apps/properties/views/webhook.py:35-52 | rolling back an atomic block restores every table to the snapshot and leaves the id sequence where it is |
| Database.Db.FreshId | apps/properties/models/booking.py:9-66 | each new row gets the next id of the sequence, larger than every id before it |
| Allocation.CandidatesBelow | apps/properties/utils.py:14-16 | the candidates are exactly the free beds of the booking's room type in a room group of the booking's property, each listed once, newest first |
| Allocation.SelectBed | apps/properties/utils.py:19-38 | the chosen bed is a candidate; some bed is chosen whenever there is a candidate; when every room group holds a candidate it is the newest one, otherwise a bed of a group with the largest candidate count, and the newest candidate of that group (no newer candidate shares its group) |
| Allocation.RandomOrFirst | apps/properties/utils.py:33-36 | the fallback chooses a bed exactly when there is a candidate, and only a candidate |
| Allocation.MaxCount | apps/properties/utils.py:25-29 | the count it returns bounds every group's candidate count and is attained by one of them |
| Allocation.FirstWithCount | apps/properties/utils.py:30-32 | returns the first (newest) candidate whose group has the given count |
| Allocation.SelectionIgnoresPick | apps/properties/utils.py:30-36 | the random pick never influences the choice: some group always holds a candidate, so the random branch is dead |
| Allocation.MixedGroupsSkipNewest | apps/properties/utils.py:19-32 | candidates spread over more groups than the pair has (beds left behind by a room-type change) reach the count branch, which passes over the newest candidate for the newest bed of the group holding most candidates |
| Allocation.Allocate | apps/properties/utils.py:10-51 | a failure leaves every table unchanged; a database or integrity fault becomes "Database error during bed allocation.", a missing object "Required object not found.", others pass through; without a fault it succeeds exactly when there is a candidate, binds that candidate to the user and marks the booking allotted, and with no candidate fails with "No available beds in this property and room type." |
| Allocation.SingleGroupForCandidates | apps/properties/utils.py:19-23 | in well-formed tables where every bed carries its group's room type, the candidates of a pair lie in the one room group for that pair, so the "every group holds a candidate" branch fires |
| Allocation.AllocatesNewestCandidate | apps/properties/utils.py:22-23 | in well-formed tables where every bed carries its group's room type, the allocated bed is the newest free matching bed |
| Allocation.CandidatesStep | apps/properties/utils.py:14-16 | the candidate list grows by one exactly at a candidate id |
| Allocation.CandidateAfterBind | apps/properties/utils.py:39-44 | after binding bed b the candidates are the old ones without b |
| Allocation.CandidatesAfterBind | apps/properties/utils.py:39-44 | binding a candidate shrinks the candidate list by exactly that bed |
| Allocation.AllocationUsesOneBed | apps/properties/utils.py:39-41 | a successful allocation lowers the number of free matching beds by exactly one |
| Allocation.BindKeepsWellFormed | apps/properties/utils.py:39-44 | binding a bed to an existing user keeps every table invariant |
| Allocation.BindKeepsBedTypes | apps/properties/utils.py:39-44 | binding a bed changes no bed's group or room type, so beds keep matching their groups |
| Allocation.AllocateBed | apps/properties/utils.py:10-51 | the store method returns and leaves exactly what the allocation function prescribes and keeps the invariants |
| BedNumbers.CapacityFor | apps/properties/serializers/properties.py:110-122 | room-type creation gives capacities 1 to 6, and capacity 1 exactly for single occupancy |
| BedNumbers.CapacityDeterminesName | apps/properties/serializers/properties.py:110-122 | two room-type names get the same capacity only when they are the same name |
| BedNumbers.SuffixChar | apps/properties/serializers/properties.py:179-183 | `chr(65 + i)` is the i-th capital letter for i below 26 and is never a digit, a space or "-" |
| BedNumbers.SuffixList | apps/properties/serializers/properties.py:177-185 | single occupancy gets the 26 capital letters, every other room type `capacity` non-empty two-letter suffixes, all distinct |
| BedNumbers.SuffixesOfEachRoomType | apps/properties/serializers/properties.py:177-185 | with its own capacity, double occupancy uses AA, AB; triple BA-BC; quadruple CA-CD; quintuple DA-DE; sixtuple EA-EF; single starts at A |
| BedNumbers.EnoughSuffixes | apps/properties/serializers/properties.py:188-189 | a room type created with its own capacity has a suffix for every bed of a room, so `suffix_list[bed_no - 1]` never fails |
| BedNumbers.RoomLabel | apps/properties/serializers/properties.py:190 | the `" 03d"` room label is a space followed by at least two digits, exactly two below room 100 |
| BedNumbers.RoomLabelValue | apps/properties/serializers/properties.py:190 | the digits of a room label read back as the room number |
| BedNumbers.LabelsAlign | apps/properties/serializers/properties.py:190 | the "-" after a room label cannot fall inside another room label of the same bed number |
| BedNumbers.BedNumberInjective | apps/properties/serializers/properties.py:190 | two bed numbers are equal exactly when room and suffix are equal |
| BedNumbers.BedName | apps/properties/serializers/properties.py:188-190 | bed `bed_no` of a room has a number exactly when the suffix list has an entry for it |
| BedNumbers.SuffixesDistinct | apps/properties/serializers/properties.py:177-185 | every suffix list is free of repeats |
| BedNumbers.BedNamesDistinct | apps/properties/serializers/properties.py:187-192 | with distinct suffixes, beds of different rooms or positions get different numbers |
| Inventory.GroupBedsMembers | apps/properties/serializers/properties.py:168-169 | the listing of a group's beds holds exactly the group's beds, each once, newest first |
| Inventory.SameGroupBeds | apps/properties/serializers/properties.py:168 | two bed tables with the same group members list the same beds |
| Inventory.GroupBedsWithout | apps/properties/serializers/properties.py:174-175 | deleting one bed of the group lowers its count by one |
| Inventory.DeleteBeds | apps/properties/serializers/properties.py:174-175 | deleting beds never touches the room groups |
| Inventory.DeleteBedsEffect | apps/properties/serializers/properties.py:173-175 | deleting the listed beds removes exactly those beds, keeps every other bed and table, and clears the bed of each booking that held one of them (`on_delete=SET_NULL`) |
| Inventory.DeleteBedKeepsWellFormed | apps/properties/models/booking.py:31 | deleting a bed keeps every table invariant, because bookings lose their link to it |
| Inventory.DeleteBedsKeepsWellFormed | apps/properties/serializers/properties.py:174-175 | deleting any list of beds keeps every table invariant |
| Inventory.DeleteBedsCount | apps/properties/serializers/properties.py:172-175 | deleting distinct members of a group lowers its count by their number |
| Inventory.FillRoom | apps/properties/serializers/properties.py:188-192 | the inner loop draws one id per bed; on success exactly `count` ids |
| Inventory.FillRooms | apps/properties/serializers/properties.py:187-192 | the outer loop never moves the id counter backwards |
| Inventory.FullRooms | apps/properties/serializers/properties.py:186 | `current // capacity` is the number of rooms whose beds are all counted |
| Inventory.PlaceBedKeepsWellFormed | apps/properties/serializers/properties.py:192 | creating a bed whose number is free in the group keeps every invariant, including the unique bed number per group |
| Inventory.FillRoomKeepsWellFormed | apps/properties/serializers/properties.py:188-192 | a room that fills keeps every invariant |
| Inventory.FillRoomsKeepsWellFormed | apps/properties/serializers/properties.py:187-192 | rooms that fill keep every invariant |
| Inventory.PlaceBedCount | apps/properties/serializers/properties.py:192 | a created bed joins the group |
| Inventory.FillRoomCount | apps/properties/serializers/properties.py:188-192 | every bed of a filled room joins the group |
| Inventory.FillRoomsCount | apps/properties/serializers/properties.py:187-192 | every bed the loops create joins the group |
| Inventory.OneMoreRoom | apps/properties/serializers/properties.py:187-188 | one more room adds `capacity` beds |
| Inventory.FillRoomsNext | apps/properties/serializers/properties.py:187-192 | the loops draw `capacity` ids per room |
| Inventory.RoomHaltSticks | apps/properties/serializers/properties.py:188-192 | once a bed of a room fails, the later beds change nothing: the exception ends the loop |
| Inventory.RoomsHaltSticks | apps/properties/serializers/properties.py:187-192 | once a room fails, the later rooms change nothing |
| Inventory.FillRoomFresh | apps/properties/serializers/properties.py:188-192 | with distinct suffixes and no number of the room already taken, a room fills completely |
| Inventory.FillRoomsFresh | apps/properties/serializers/properties.py:187-192 | with distinct suffixes and no clashing number in place, every room fills completely |
| Inventory.WithTotalKeepsWellFormed | apps/properties/serializers/properties.py:167 | writing the total capacity keeps every invariant |
| Inventory.ShrinkKeepsWellFormed | apps/properties/serializers/properties.py:171-175 | the shrinking branch keeps every invariant |
| Inventory.GrowKeepsWellFormed | apps/properties/serializers/properties.py:176-192 | a growing branch that succeeds keeps every invariant |
| Inventory.UpdateBedsKeepsWellFormed | apps/properties/serializers/properties.py:158-194 | a successful `_update_beds` keeps every invariant and never moves the id counter backwards |
| Inventory.UpdateBedsFrame | apps/properties/serializers/properties.py:164-193 | `_update_beds` writes only the beds, the bookings' bed links and the group's total capacity, which becomes rooms × capacity on every run |
| Inventory.FillRoomOnlyAdds | apps/properties/serializers/properties.py:188-192 | the inner loop keeps every existing bed, and every bed it adds is of the group and its room type |
| Inventory.FillRoomsOnlyAdds | apps/properties/serializers/properties.py:187-192 | the outer loop keeps every existing bed, and every bed it adds is of the group and its room type |
| Inventory.UpdateBedsKeepsBedTypes | apps/properties/serializers/properties.py:158-194 | a successful `_update_beds` keeps every bed carrying its group's room type, since it creates beds only of the group's room type and writes no other bed |
| Inventory.UpdateBedsKeepsOldBeds | apps/properties/serializers/properties.py:176-192 | when `_update_beds` does not shrink the group, every existing bed is left exactly as it was |
| Inventory.ShrinkKeepsOldest | apps/properties/serializers/properties.py:171-175 | shrinking keeps exactly the `required` oldest beds of the group and deletes the newest, occupied or not; the group ends with exactly rooms × capacity beds |
| Inventory.DeleteNewest | apps/properties/serializers/properties.py:173-175 | deleting the k newest beds of a group leaves exactly the others |
| Inventory.DeleteNewestCount | apps/properties/serializers/properties.py:172-175 | deleting the k newest beds lowers the group's count by k |
| Inventory.DescendingSplit | apps/properties/serializers/properties.py:173 | in the newest-first listing, a bed not among the first k is among the rest, and the first k are distinct |
| Inventory.NoGroupBeds | apps/properties/serializers/properties.py:168-169 | a group without beds lists none |
| Inventory.MoreRoomsMoreBeds | apps/properties/serializers/properties.py:170 | with a positive capacity the required count is at least the number of rooms |
| Inventory.GrowthArithmetic | apps/properties/serializers/properties.py:186-188 | when growing, `current // capacity` is below the room count, and filling the rooms after it yields required + current mod capacity beds |
| Inventory.GrowthCount | apps/properties/serializers/properties.py:176-192 | growing starts at room `current // capacity + 1` and ends with rooms × capacity + current mod capacity beds: exactly the required count when the current count is a whole number of rooms |
| Inventory.FillRoomsGrowth | apps/properties/serializers/properties.py:186-192 | filling from the first incomplete room adds the missing beds plus the beds of that room already counted |
| Inventory.FreshGroupGetsAllBeds | apps/properties/serializers/properties.py:143-148 | a new room group whose room type has its own capacity gets exactly rooms × capacity beds and no error |
| Inventory.UpdateBedsCount | apps/properties/serializers/properties.py:167-192 | the group ends with rooms × capacity beds when shrinking or unchanged, and that plus current mod capacity when growing |
| Inventory.UpdateBedsSettles | apps/properties/serializers/properties.py:158-194 | once the group holds rooms × capacity beds, running `_update_beds` again changes nothing |
| Inventory.RemoveBeds | apps/properties/serializers/properties.py:174-175 | the deletion loop deletes the listed beds in order and keeps the invariants |
| Inventory.RoomStep | apps/properties/serializers/properties.py:189-192 | one pass of the inner loop: a missing suffix stops with an index error, a taken number stops with a constraint error after drawing an id, otherwise the bed is created |
| Inventory.AddRoom | apps/properties/serializers/properties.py:188-192 | the inner loop leaves exactly the beds and counter the inner-loop function prescribes, or stops where it does |
| Inventory.RoomsStep | apps/properties/serializers/properties.py:187-192 | one pass of the outer loop extends the rooms before it; a failed room is where the loops stop |
| Inventory.AddBeds | apps/properties/serializers/properties.py:187-192 | the outer loop leaves exactly what the outer-loop function prescribes, or stops where it does |
| Inventory.UpdateBeds | apps/properties/serializers/properties.py:158-194 | the store method does what `_update_beds` prescribes: the same tables and counter on success, the same error and counter on failure, and keeps the invariants on success |
| RoomGroups.RoomTypeProblems | apps/properties/models/properties.py:91 | a room-type name is accepted exactly when it is one of the six choice values and no room type has it yet; one error otherwise |
| RoomGroups.CreateRoomType | apps/properties/serializers/properties.py:106-124 | a refused request writes nothing and draws no id |
| RoomGroups.CreatedRoomType | apps/properties/serializers/properties.py:106-124 | a created room type is stored under a fresh id with the requested name and the capacity of that name; nothing else changes, names stay unique, the tables stay well formed |
| RoomGroups.EachNameOnce | apps/properties/models/properties.py:91 | a room-type value is accepted exactly when its name is unused, and a second request for it is refused with the unique-name error |
| RoomGroups.CreateRoomTypeKeepsCapacities | apps/properties/serializers/properties.py:110-123 | room types created through the endpoint all carry the capacity of their name |
| RoomGroups.NewRoomTypeKeepsWellFormed | apps/properties/serializers/properties.py:109 | inserting a room type keeps every table invariant |
| RoomGroups.CreateRoomTypeOn | apps/properties/serializers/properties.py:106-124 | the endpoint on the store inserts the row, then sets its capacity, leaving what the room-type function prescribes |
| RoomGroups.KeyProblems | apps/properties/models/properties.py:113-114 | a foreign-key field passes exactly when it names an existing row, or is absent where the field is not required; a value naming no row is reported as such |
| RoomGroups.RoomsProblems | apps/properties/models/properties.py:115 | `number_of_rooms` passes exactly when it is within 0..2147483647, or absent where the field is not required |
| RoomGroups.PriceProblems | apps/properties/models/properties.py:116 | `price_per_month` passes exactly when `DecimalField(max_digits=19, decimal_places=2)` accepts it, or it is absent where the field is not required; a refused price carries the field's digit error |
| RoomGroups.ProblemText | apps/common/serializers.py:25-40 | the two foreign-key fields answer required and missing-row errors with the texts the error-message mixin installs, given as a parameter; every other field answers DRF's own text |
| RoomGroups.FieldProblems | apps/properties/models/properties.py:113-116 | a request's fields pass exactly when property, room type, room count and price each pass |
| RoomGroups.PriceValue | apps/properties/models/properties.py:116 | an accepted price has at most two places and is kept exactly, in hundredths |
| RoomGroups.PriceWholeDigitsRefused | apps/properties/models/properties.py:116 | 10^17 has eighteen digits, within the nineteen allowed, yet is refused for its eighteen whole digits where seventeen fit |
| RoomGroups.GroupProblems | apps/properties/models/properties.py:122 | a create passes exactly when property and room type exist, the room count is within 0..2147483647, the price fits 19 digits with 2 places, and no group already pairs the property with the room type; when a field fails, the field errors are the whole answer, as the pair check runs only after them |
| RoomGroups.Settle | config/settings/base.py:101 | with atomic requests, a failing `_update_beds` rolls every table back and answers with a server error, while the id sequence keeps its advance |
| RoomGroups.SettleKeepsWellFormed | config/settings/base.py:101 | whichever way `_update_beds` ends, the request leaves well-formed tables |
| RoomGroups.SettledUpdateKeepsWellFormed | apps/properties/serializers/properties.py:150-156 | `_update_beds` with rollback on failure leaves well-formed tables |
| RoomGroups.CreateRoomGroup | apps/properties/serializers/properties.py:143-148 | a refused or failed request writes nothing; a refused one draws no id |
| RoomGroups.AddGroup | apps/properties/serializers/properties.py:146-147 | writing a group then its beds either saves it under the next id or rolls back completely |
| RoomGroups.AddGroupKeepsWellFormed | apps/properties/serializers/properties.py:143-148 | writing a validated group and its beds keeps every invariant |
| RoomGroups.NewGroupKeepsWellFormed | apps/properties/models/properties.py:122 | inserting a group whose (property, room type) pair is unused keeps every invariant |
| RoomGroups.CreateRoomGroupKeepsWellFormed | apps/properties/serializers/properties.py:143-148 | the create endpoint keeps every invariant whatever the request |
| RoomGroups.CreateRoomGroupKeepsBedTypes | apps/properties/serializers/properties.py:143-148 | a created group and the beds `_update_beds` gives it carry the same room type, so beds keep matching their groups |
| RoomGroups.NewGroupGetsAllBeds | apps/properties/serializers/properties.py:143-148 | a valid request for a room type with the capacity of its name is saved under a fresh id, and the new group holds exactly rooms × capacity beds with that total capacity recorded |
| RoomGroups.AddGroupGetsAllBeds | apps/properties/serializers/properties.py:146-147 | a group written under a fresh id gets all its beds when its room type has the capacity of its name |
| RoomGroups.SecondGroupRefused | apps/properties/models/properties.py:122 | once a group pairs a property with a room type, a second request for the same pair is refused |
| RoomGroups.ChangeProblems | apps/properties/serializers/properties.py:150-156 | an update passes exactly when its fields pass (all required in a full update, those carried in a partial one) and no other group holds the pair it ends with, absent fields taking the group's own values; the pair check is skipped when the request changes neither property nor room type and runs only after the fields pass |
| RoomGroups.ValidChangeKeepsPairsUnique | apps/properties/models/properties.py:122 | after a valid update no other group holds the pair the group ends with, so the unique constraint is kept |
| RoomGroups.Changed | apps/properties/serializers/properties.py:154 | the group after an update has the pair the request ends with and the room count and price it carries (price in hundredths), and keeps its total capacity and availability |
| RoomGroups.UpdateRoomGroup | apps/properties/serializers/properties.py:150-156 | answers not-found exactly when the group is missing and rejects exactly when the change has problems, writing nothing unless saved; a saved update names the group and a valid change; the id counter never moves back |
| RoomGroups.ChangedGroupKeepsWellFormed | apps/properties/serializers/properties.py:154 | writing a valid change, a new property or room type included, keeps every invariant |
| RoomGroups.UpdateRoomGroupKeepsWellFormed | apps/properties/serializers/properties.py:150-156 | the update endpoint, full or partial, keeps every invariant whatever the request |
| RoomGroups.UpdatedGroupBeds | apps/properties/serializers/properties.py:150-156 | after a saved update the group has the pair the request ends with and total capacity rooms × capacity of the room type it now has; it holds that many beds when it shrank or kept its size, plus current mod capacity when it grew |
| RoomGroups.UpdateRoomGroupKeepsBedTypes | apps/properties/serializers/properties.py:150-156 | an update that keeps the group's room type keeps every bed carrying its group's room type |
| RoomGroups.RetypeLeavesOldBeds | apps/properties/serializers/properties.py:150-192 | an update moving a group to another room type without shrinking it leaves its old beds untouched, still of the old room type, so beds and groups no longer match |
| RoomGroups.UpdateRoomGroupOn | apps/properties/serializers/properties.py:150-156 | the update endpoint on the store, full or partial, leaves what the update function prescribes |
| RoomGroups.CreateRoomGroupOn | apps/properties/serializers/properties.py:143-148 | the create endpoint on the store leaves what the create function prescribes |
| RoomGroups.AddGroupOn | apps/properties/serializers/properties.py:146-147 | the store writes the group then its beds as the function prescribes, rolling back on failure |
| RoomGroups.WriteGroupOn | apps/properties/serializers/properties.py:146 | the group is inserted under the next id; nothing else changes |
| RoomGroups.PlaceBedsOn | apps/properties/serializers/properties.py:147 | `_update_beds` on the store, with rollback to the snapshot on failure |
| RoomGroups.DeleteRoomGroup | apps/properties/models/properties.py:139-141 | deleting an unknown group answers not-found and changes nothing; the id counter never moves |
| RoomGroups.DeleteRoomGroupCascades | apps/properties/models/properties.py:139-141 | after deleting a group no bed belongs to it, every other bed is kept, bookings that held one of its beds hold none, and the tables stay well formed |
| RoomGroups.DeleteRoomGroupKeepsBedTypes | apps/properties/models/properties.py:139-141 | deleting a group writes no surviving bed, so beds keep matching their groups |
| RoomGroups.GroupRemovalKeepsWellFormed | apps/properties/models/properties.py:139-141 | removing a group without beds keeps every invariant |
| RoomGroups.DeleteRoomGroupOn | apps/properties/models/properties.py:139-141 | the delete on the store leaves what the delete function prescribes |
| BookingFlow.KeyProblem | apps/properties/serializers/booking.py:13 | a foreign-key field passes exactly when present and naming an existing row, with at most one error |
| BookingFlow.Problems | apps/properties/serializers/booking.py:9-13 | a request has no problems exactly when property and room type exist, the joining date is present and `DecimalField(max_digits=10, decimal_places=2)` accepts the amount; a refused amount's digit error is the last problem |
| BookingFlow.Validate | apps/properties/serializers/booking.py:6-13 | validation fails with exactly the request's problems, or succeeds with the request's property, room type and date and its amount exactly, in hundredths |
| BookingFlow.AmountAccepted | apps/properties/serializers/booking.py:9 | an accepted amount has at most two places and magnitude below 10^8; every such amount without a positive exponent is accepted |
| BookingFlow.NineWholeDigitsRefused | apps/properties/serializers/booking.py:9 | 123456789 has nine digits, within the ten allowed, yet is refused for its nine whole digits where eight fit |
| BookingFlow.ThreePlacesRefused | apps/properties/serializers/booking.py:9 | 1.005 is refused for its three decimal places where two fit |
| BookingFlow.ReceiptNamesBooking | apps/properties/views/booking.py:44 | two orders carry the same receipt exactly when they are for the same booking |
| BookingFlow.CreateBooking | apps/properties/views/booking.py:18-105 | an anonymous request is refused as not authenticated (401) and an authenticated non-guest as forbidden (403), both with nothing written; a refused or invalid request writes nothing; a server error rolls every table back; the id counter never goes back |
| BookingFlow.RequestPayment | apps/properties/views/booking.py:35-104 | a gateway crash restores the state the view started from |
| BookingFlow.RejectedRequestSendsNothing | apps/properties/views/booking.py:25-26 | a request by a non-guest or with invalid fields sends nothing to the gateway, writes nothing, and an invalid one answers with its problems |
| BookingFlow.CreatedBooking | apps/properties/views/booking.py:32-99 | a created reply means the order and the link were both created; exactly one pending booking for the requester and one payment carrying the order id, link id and amount are added, and the reply names the booking and the link's short url |
| BookingFlow.NewBookingKeepsWellFormed | apps/properties/views/booking.py:32-34 | writing a pending booking for an existing user, property and room type keeps every invariant |
| BookingFlow.RequestPaymentKeepsWellFormed | apps/properties/views/booking.py:35-104 | every gateway outcome leaves well-formed tables |
| BookingFlow.NewPaymentKeepsWellFormed | apps/properties/models/booking.py:51-63 | a payment whose order id and booking are unused keeps every invariant |
| BookingFlow.CreateBookingKeepsWellFormed | apps/properties/views/booking.py:21-105 | the booking view keeps every invariant whatever the request and the gateway answer |
| BookingFlow.GatewayRefusalLeavesPendingBooking | apps/properties/views/booking.py:48-83 | an empty or bad-request answer from the gateway leaves a pending booking that no payment refers to |
| BookingFlow.GatewayCrashWritesNothing | apps/properties/views/booking.py:21-47 | an order request that raises rolls the pending booking back and no link is requested |
| BookingFlow.CreateBookingOn | apps/properties/views/booking.py:21-105 | the view on the store answers, sends and leaves what the booking function prescribes |
| BookingFlow.OpenBookingOn | apps/properties/views/booking.py:32-104 | writing the booking under the next id and then asking the gateway is the gateway part applied to that state |
| BookingFlow.RequestPaymentOn | apps/properties/views/booking.py:36-104 | the gateway part on the store matches its function, restoring the saved state on a crash |
| BookingFlow.RecordPaymentOn | apps/properties/views/booking.py:60-99 | once the order exists, the link request and payment insert match the function |
| BookingFlow.InsertPaymentOn | apps/properties/views/booking.py:84-89 | the payment is written under a fresh id unless its order id or booking is taken, in which case the atomic block rolls back and the id stays consumed |
| Webhook.Get | apps/properties/views/webhook.py:29-31 | `get` on a dict answers the stored value or the default, and fails on anything that is not a dict |
| Webhook.ReadPaymentEvent | apps/properties/views/webhook.py:29-32 | the order id, user id and payment id are read back from the notes and entity of a payment event exactly as they were placed |
| Webhook.NonObjectEventFails | apps/properties/views/webhook.py:29 | a body that is not a JSON object cannot be read as an event |
| Webhook.ColumnText | apps/properties/views/webhook.py:36-41 | a non-null value is compared and stored as its `str`: a string as itself, an integer as its signed decimal text, a boolean as "True"/"False", a list or dict as text opening with its bracket; none of them raises |
| Webhook.IdValue | apps/properties/views/webhook.py:46 | an integer is the id itself, a boolean 1 or 0, a string whatever `int()` reads from it (a plain digit string its value); null, lists and dicts raise |
| Webhook.IdValueOfText | apps/properties/views/webhook.py:46 | a user id sent as its decimal text reads back as the same id |
| Webhook.Ungrouped | apps/properties/views/webhook.py:46 | taking the underscores out leaves only digits, and a digit string unchanged |
| Webhook.ReadInt | apps/properties/views/webhook.py:46 | stripped grouped digits read as their value, and with a leading minus as its negation |
| Webhook.IntOfText | apps/properties/views/webhook.py:46 | `int()` reads a non-empty digit string, leading zeros included, as its decimal value |
| Webhook.PaddedIdReadsBack | apps/properties/views/webhook.py:46 | an id written in decimal and surrounded by any whitespace reads back as the same id |
| Webhook.Stripped | apps/properties/views/webhook.py:46 | stripping text that starts and ends with non-whitespace, surrounded by whitespace, gives that text back |
| Webhook.SameStripSameInt | apps/properties/views/webhook.py:46 | two texts that strip to the same text read as the same id, or both raise |
| Webhook.TrimStartSpaces | apps/properties/views/webhook.py:46 | leading whitespace before text that starts with non-whitespace is dropped, and nothing more |
| Webhook.TrimEndSpaces | apps/properties/views/webhook.py:46 | trailing whitespace after text that ends with non-whitespace is dropped, and nothing more |
| Webhook.UngroupedAppend | apps/properties/views/webhook.py:46 | taking the underscores out distributes over concatenation |
| Webhook.UnderscoreBetweenDigits | apps/properties/views/webhook.py:46 | digits split by one underscore, such as "1_2", read as the digits joined (12) |
| Webhook.DigitEndsStripped | apps/properties/views/webhook.py:46 | text that starts and ends with a digit is left as it is by stripping |
| Webhook.UngroupedAroundUnderscore | apps/properties/views/webhook.py:46 | taking the underscore out of two digit strings joined by one gives the two joined |
| Webhook.GroupedText | apps/properties/views/webhook.py:46 | grouped digits that stripping leaves alone read as the value of their digits |
| Webhook.GroupedAroundUnderscore | apps/properties/views/webhook.py:46 | two digit strings joined by one underscore are well-formed digit groups |
| Webhook.DoubleUnderscoreRefused | apps/properties/views/webhook.py:46 | two underscores in a row ("1__2") make the text unreadable as an id |
| Webhook.PaymentWithOrder | apps/properties/views/webhook.py:36 | the answer is a payment with that order id and no newer payment holds it, or there is none at all |
| Webhook.MarkPaid | apps/properties/views/webhook.py:39-41 | the payment becomes paid with the event's payment id, all its other fields kept |
| Webhook.MadeCustomer | apps/properties/views/webhook.py:50-52 | the user's role becomes customer and nothing else changes |
| Webhook.AllocateAndPromote | apps/properties/views/webhook.py:49-55 | a failed allocation answers the internal-error reply and rolls back to the state before the atomic block |
| Webhook.ApplyPayment | apps/properties/views/webhook.py:39-55 | a 400 from inside the block is the internal-error reply with the tables as they were |
| Webhook.UserStage | apps/properties/views/webhook.py:46-55 | an id that `int()` cannot read rolls back with the internal error; an id naming no user answers 404 keeping the confirmed tables; no reply is a server error |
| Webhook.ApplyEvent | apps/properties/views/webhook.py:33-55 | a 400 from the atomic block is the internal-error reply with the tables as they were; an order id whose text no payment holds answers 404 with nothing written; nothing in it is a server error |
| Webhook.HandleEvent | apps/properties/views/webhook.py:21-61 | a bad signature or body is refused with nothing written, every 400 reply leaves the tables as they were, and no reply is a server error |
| Webhook.Post | apps/properties/views/webhook.py:21-25 | a body that is not UTF-8 gets the framework's 500 with nothing written, and this is the only way to a 500; a UTF-8 body is handled as above |
| Webhook.OnlySuccessOrUnknownUserWrites | apps/properties/views/webhook.py:33-55 | the tables change only when the event succeeds or when its user is not found |
| Webhook.SuccessfulEvent | apps/properties/views/webhook.py:36-55 | a successful event pays the payment holding its order id, allots its booking a bed that was free and of the booked property and room type, binds that bed to the user named in the event (never compared with the booking's own user) and makes that user a customer whatever their role was |
| Webhook.PaymentEventDispatch | apps/properties/views/webhook.py:33-38 | an event with all three fields answers 404 when no payment holds its order id, and otherwise is applied to the newest payment holding it |
| Webhook.ApplyPaymentSucceeds | apps/properties/views/webhook.py:39-55 | a successful application pays the payment, allots its booking a matching free bed, binds only that bed to the user and makes the user a customer |
| Webhook.SuccessfulEventApplies | apps/properties/views/webhook.py:28-49 | every successful event has its three fields truthy and is the application of the newest payment holding its order id's text, paid with its payment id's text |
| Webhook.UnknownUserKeepsPayment | apps/properties/views/webhook.py:46-48 | an event naming an unknown user answers 404 yet keeps the payment paid and its booking confirmed |
| Webhook.UnknownOrderChangesNothing | apps/properties/views/webhook.py:36-38 | an event whose order id, whatever JSON value it is, has a text that no payment holds answers 404 and changes nothing |
| Webhook.ContainerOrderIdNotFound | apps/properties/views/webhook.py:36-38 | a non-empty list or dict sent as the order id is compared as text and answers 404 with nothing written (not the internal error), unless some payment's order id starts with a bracket |
| Webhook.FalsyFieldRefused | apps/properties/views/webhook.py:33-34 | an event with a missing or empty order id, user id or payment id answers 400 with the invalid-payload error and changes nothing |
| Webhook.ReplayBindsSecondBed | apps/properties/views/webhook.py:36-52 | no record of applied events is kept: a second successful delivery of one event binds a second bed to the same user |
| Webhook.AllocateAndPromoteKeepsWellFormed | apps/properties/views/webhook.py:49-52 | allocating and promoting keeps every invariant |
| Webhook.PaidAndConfirmedKeepsWellFormed | apps/properties/views/webhook.py:39-45 | the payment's booking exists, and paying and confirming keeps every invariant |
| Webhook.ApplyPaymentKeepsWellFormed | apps/properties/views/webhook.py:39-55 | the atomic block keeps every invariant |
| Webhook.HandleEventKeepsWellFormed | apps/properties/views/webhook.py:21-61 | the webhook keeps every invariant whatever the event |
| Webhook.ApplyPaymentKeepsBedTypes | apps/properties/views/webhook.py:39-52 | the atomic block writes no bed's group or room type, so beds keep their groups' room types |
| Webhook.HandleEventKeepsBedTypes | apps/properties/views/webhook.py:21-61 | the webhook keeps every bed carrying its group's room type, whatever the event |
| Webhook.HandleWebhook | apps/properties/views/webhook.py:21-61 | the view on the store replies and leaves what `post` prescribes, including the 500 for a body that is not UTF-8, drawing no id |
| Webhook.ApplyPaymentOn | apps/properties/views/webhook.py:39-55 | the atomic block on the store matches its function |
| Webhook.ConfirmOn | apps/properties/views/webhook.py:39-45 | on the store, the payment is paid and its existing booking confirmed, as the function prescribes |
| Webhook.AllocateAndPromoteOn | apps/properties/views/webhook.py:46-55 | allocation and promotion on the store match the function, rolling back on failure |
| Webhook.PromoteOn | apps/properties/views/webhook.py:50-52 | on the store, the user becomes a customer |
| TimeSlots.HourPart | apps/properties/serializers/properties.py:303 | `%I:` reads an hour from 1 to 12 followed by a colon, consuming input |
| TimeSlots.MinutePart | apps/properties/serializers/properties.py:303 | `%M` reads a minute below 60, which must be followed by `str` whitespace (0x1c to 0x1f included) |
| TimeSlots.DropSpaces | apps/properties/serializers/properties.py:303 | the space in the format skips all leading `str` whitespace |
| TimeSlots.ParseTime | apps/properties/serializers/properties.py:303 | every time that is read is a valid time of day |
| TimeSlots.TwoDigits | apps/properties/serializers/properties.py:321 | `%I` and `%M` print a number below 100 as two digits that read back as it |
| TimeSlots.DialHour | apps/properties/serializers/properties.py:321 | the printed hour is always between 1 and 12 |
| TimeSlots.ClockOfDial | apps/properties/serializers/properties.py:321 | the printed 12-hour hour and its marker determine the 24-hour hour |
| TimeSlots.TwelveOClock | apps/properties/serializers/properties.py:303 | 12 AM is midnight, 12 PM is noon, and other hours gain 12 exactly after PM |
| TimeSlots.ParseFormat | apps/properties/serializers/properties.py:303-321 | a time printed for the list is read back as the same time |
| TimeSlots.LooseHourAndMarker | apps/properties/serializers/properties.py:303 | a one-digit hour and a lower-case marker are accepted (`9:05 pm` is 21:05) |
| TimeSlots.SeparatorAsSpace | apps/properties/serializers/properties.py:303 | separator 0x1c may stand for the space (`09:05\x1cPM` is 21:05) |
| TimeSlots.LooseMinuteAndSpaces | apps/properties/serializers/properties.py:303 | a one-digit minute and several spaces are accepted (`12:7   am` is 00:07) |
| TimeSlots.HourOutOfPattern | apps/properties/serializers/properties.py:303 | an hour past 12 is refused |
| TimeSlots.MinuteOutOfPattern | apps/properties/serializers/properties.py:303 | a minute past 59 is refused |
| TimeSlots.TrailingSpaceOutOfPattern | apps/properties/serializers/properties.py:303 | text after the marker is refused |
| TimeSlots.FormatCanonical | apps/properties/serializers/properties.py:321 | what is printed is two-digit hour, colon, two-digit minute, a space and AM or PM |
| TimeSlots.CanonicalReads | apps/properties/serializers/properties.py:303 | a canonical string is read from its two-digit hour, its two-digit minute and its marker |
| TimeSlots.CanonicalPrinted | apps/properties/serializers/properties.py:321 | a canonical string is what is printed for the hour and minute written in it |
| TimeSlots.CanonicalRoundTrip | apps/properties/serializers/properties.py:303-321 | a canonical string that is read is printed back unchanged |
| TimeSlots.FormatInjective | apps/properties/serializers/properties.py:321 | two times print the same exactly when they are equal |
| TimeSlots.SlotRoundTrip | apps/properties/serializers/properties.py:300-326 | a slot as the list prints it is read back as the same slot |
| TimeSlots.ReadSlotAccepts | apps/properties/serializers/properties.py:300-305 | a slot is read exactly when both ends are present and readable, and each end is read on its own |
| Decimals.PrecisionOf | apps/properties/serializers/properties.py:200-201 | the field counts digits as whole digits plus decimal places, the decimal places given by a negative exponent, and a fraction with no more digits than places having no whole digits |
| Decimals.Quantize | apps/properties/serializers/properties.py:200-201 | an accepted decimal has at most `decimal_places` places and is kept exactly, in units of 10^-places; a refusal is one of the three digit errors with the field's own limits |
| Decimals.TooManyPlacesRefused | apps/properties/serializers/properties.py:200-201 | a decimal with more places than the field allows is refused for its places, or for its total digits when those also exceed the limit, checked first |
| Decimals.MulMono | apps/properties/serializers/properties.py:200-201 | multiplying by a natural number keeps the order |
| Decimals.ScaleBound | apps/properties/serializers/properties.py:200-201 | c is below 10^k exactly when c × 10^m is below 10^(k+m) |
| Decimals.QuotientBound | apps/properties/serializers/properties.py:200-201 | n / d is below k exactly when n is below k × d |
| Decimals.ScaledMagnitude | apps/properties/serializers/properties.py:200-201 | the magnitude of the scaled value is the coefficient times the power of ten the places leave |
| Decimals.WholeDigitsFraction | apps/properties/serializers/properties.py:200-201 | a decimal with more digits than places has at most w whole digits exactly when its scaled magnitude is below 10^(w + places) |
| Decimals.ScaledDigits | apps/properties/serializers/properties.py:200-201 | c has at most w + k digits exactly when c × 10^m is below 10^(w+k+m) |
| Decimals.WholeDigitsSmall | apps/properties/serializers/properties.py:200-201 | a decimal with no more digits than places has scaled magnitude below 10^(w + places) |
| Decimals.BelowOne | apps/properties/serializers/properties.py:200-201 | a coefficient below 10^k, scaled by 10^m, is below 10^(w+k+m) |
| Decimals.BelowScaled | apps/properties/serializers/properties.py:200-201 | a number below p is below q × p for q at least one |
| Decimals.WholeDigitsWhole | apps/properties/serializers/properties.py:200-201 | a whole decimal with n digits and exponent e, n + e ≤ w, has scaled magnitude below 10^(w + places), and the converse holds for exponent 0 |
| Decimals.WholeDigitsBound | apps/properties/serializers/properties.py:200-201 | n digits and exponent e with n + e ≤ w bound the scaled magnitude by 10^(w + places) |
| Decimals.WholeDigitsExact | apps/properties/serializers/properties.py:200-201 | a scaled magnitude below 10^(w + places) leaves the coefficient at most w digits |
| Coordinates.TruncDigits | apps/properties/serializers/properties.py:208 | `int(value)` keeps the whole part, which has at most k digits exactly when the magnitude is below 10^k |
| Decimals.WholeDigitsMagnitude | apps/properties/serializers/properties.py:200-201 | a decimal with at most w whole digits has magnitude below 10^w, and for a decimal without a positive exponent the converse holds |
| Decimals.QuantizeMagnitude | apps/properties/serializers/properties.py:200-201 | a DecimalField with `max_digits` digits, `decimal_places` of them decimal, accepts only values of magnitude below 10^(max_digits − decimal_places), and every such value with at most `decimal_places` places and no positive exponent |
| Coordinates.SignedLength | apps/properties/serializers/properties.py:208 | the text of the whole part starts with a minus sign exactly when the value is at most −1, and that sign adds one to its length |
| Coordinates.LatitudeAsWrittenAccepts | apps/properties/serializers/properties.py:203-210 | as written, a latitude passes exactly when −10 < v ≤ 90, because the minus sign counts as a digit |
| Coordinates.LongitudeAsWrittenAccepts | apps/properties/serializers/properties.py:212-219 | as written, a longitude passes exactly when −100 < v ≤ 180 |
| Coordinates.LatitudeCheckedAccepts | apps/properties/serializers/properties.py:203-210 | counting digits only, a latitude passes exactly when −90 ≤ v ≤ 90 |
| Coordinates.LongitudeCheckedAccepts | apps/properties/serializers/properties.py:212-219 | counting digits only, a longitude passes exactly when −180 ≤ v ≤ 180 |
| Coordinates.BothZeroOnlyAfterFields | apps/properties/serializers/properties.py:221-228 | the both-zero error is raised exactly when both fields passed with the value 0, and the pair passes exactly when both fields passed and are not both zero |
| Coordinates.MissingIsRequired | apps/properties/serializers/properties.py:200-201 | a missing coordinate is reported as required under its own key |
| Coordinates.AsWrittenAccepts | apps/properties/serializers/properties.py:200-228 | as written, the serializer accepts exactly latitudes −10 < v ≤ 90 and longitudes −100 < v < 100 that are not both zero |
| Coordinates.ValidateSound | apps/properties/serializers/properties.py:203-228 | the intended serializer returns the values unchanged and only when the latitude is in [−90, 90], the longitude in [−180, 180], and they are not both zero |
| Coordinates.ValidateAccepts | apps/properties/serializers/properties.py:203-228 | the intended serializer accepts every latitude in [−90, 90] and longitude in [−180, 180] that are not both zero, and nothing else |
| Coordinates.SouthernLatitudeRefused | apps/properties/serializers/properties.py:208 | the latitude −45.5 with longitude 77 is refused with the whole-digits error as written and accepted by the intended check |
| Coordinates.EasternLongitudeRefused | apps/properties/serializers/properties.py:201 | the longitude 120.5 with latitude 12.9 is refused by the 22-digit field as written and accepted with 23 digits |
| Coordinates.OneIsPow10 | apps/properties/serializers/properties.py:200-201 | one unit of the 20-place field is 10^20 |
| Coordinates.SouthernUnits | apps/properties/serializers/properties.py:200-201 | −45.5 and 77 are −455 × 10^19 and 77 × 10^20 units |
| Coordinates.SouthernAxes | apps/properties/serializers/properties.py:203-219 | as written, −45.5 fails the latitude check and 77 passes the longitude check |
| Coordinates.SouthernLatitudeAxis | apps/properties/serializers/properties.py:203-210 | as written, −45.5 fails the latitude check, its minus sign counting as a third digit |
| Coordinates.SouthernInRange | apps/properties/serializers/properties.py:203-219 | −45.5 and 77 lie within [−90, 90] and [−180, 180], and the longitude is not zero |
| Coordinates.EasternUnits | apps/properties/serializers/properties.py:200-201 | 12.9 and 120.5 are 129 × 10^19 and 1205 × 10^19 units |
| Coordinates.EasternAxes | apps/properties/serializers/properties.py:200-201 | as written, 12.9 passes the latitude field and 120.5 is refused by the 22-digit longitude field for its three whole digits |
| Coordinates.EasternInRange | apps/properties/serializers/properties.py:203-219 | 12.9 and 120.5 lie within [−90, 90] and [−180, 180], and the longitude is not zero |
| Helpers.TitleFrom | apps/common/helpers.py:41 | `str.title()` keeps the length of the text |
| Helpers.TitleFromSpec | apps/common/helpers.py:41 | each character of the title-cased text is upper-cased exactly when no letter precedes it, lower-cased otherwise |
| Helpers.DisplayNameSpec | apps/common/helpers.py:34-43 | a non-string slug is returned as it is; a string keeps its length, loses every underscore, and each character is cased by whether a letter precedes it once underscores are spaces |
| Helpers.CapitalizeAll | apps/common/helpers.py:190 | every piece is capitalised, in order |
| Helpers.CapitalizedFrom | apps/common/helpers.py:190 | capitalising keeps the length of the text |
| Helpers.CapitalizedFromAppend | apps/common/helpers.py:190 | capitalising a concatenation capitalises the second part from where the first ended |
| Helpers.LowerPiece | apps/common/helpers.py:190 | inside a piece every character after the first is lower-cased |
| Helpers.CapitalizedPiece | apps/common/helpers.py:190 | a piece capitalised from its start is `str.capitalize` of the piece |
| Helpers.UnderscoreStep | apps/common/helpers.py:190 | a piece, an underscore and the rest become the capitalised piece, a space, and the capitalised rest |
| Helpers.JoinedPieces | apps/common/helpers.py:190 | joining capitalised pieces with spaces is capitalising the pieces joined with underscores |
| Helpers.JoinedPiecesStep | apps/common/helpers.py:190 | the inductive step of the previous row, from the pieces after the first to all of them |
| Helpers.CustomCapitalizeSpec | apps/common/helpers.py:187-190 | `custom_capitalize` is the character-wise capitalisation of its input |
| Helpers.CapitalizedFromSpec | apps/common/helpers.py:187-190 | each character is upper-cased exactly when it starts the text or follows an underscore, an underscore becomes a space, and all else is lower-cased |
| Helpers.FirstOf | apps/common/helpers.py:149-156 | the answer is `None` exactly when no argument is truthy, and otherwise the first truthy argument |
| Helpers.FlattenAppend | apps/common/helpers.py:46-47 | flattening distributes over concatenating the outer list |
| Helpers.FlattenMembers | apps/common/helpers.py:46-47 | an item is in the flattened list exactly when some sublist holds it |
| Helpers.AnyIn | apps/common/helpers.py:143-146 | the answer is true exactly when some element of the first list is in the second |
| Helpers.AnyInSymmetric | apps/common/helpers.py:143-146 | the answer is the same with the two lists swapped |
| Helpers.RandomNDigits | apps/common/helpers.py:50-55 | the code has exactly n digits, no leading zero, and reads back as the draw |
| Helpers.OtpCache.constructor | apps/common/helpers.py:217-234 | the cache starts empty |
| Helpers.OtpCache.GenerateOtp | apps/common/helpers.py:217-223 | the code is the n-digit draw, stored only for the master number |
| Helpers.OtpCache.ValidateOtp | apps/common/helpers.py:226-234 | the answer and the new cache are what validation prescribes: any other number passes; the master number passes with the stored code or the fixed code, and a pass deletes the entry |
| Helpers.OtherPhonesUnchecked | apps/common/helpers.py:221-234 | a phone other than the master number passes every check and never touches the cache |
| Helpers.TextMasterPhoneUnchecked | apps/common/helpers.py:221-229 | the master number sent as a string does not equal the integer, so it is neither cached nor checked |
| Helpers.GeneratedOtpAccepted | apps/common/helpers.py:217-234 | after a code is generated for the master number, that code is accepted whether sent as a string or as a number |
| Helpers.OtpSingleUse | apps/common/helpers.py:226-233 | a code other than the fixed one passes once; the successful check deletes it |
| Validators.Clean | apps/common/validators.py:26-27 | the size of a file is its length in bytes |
| Validators.CompareBytes | apps/common/validators.py:20-24 | the size in megabytes is above the limit exactly when the byte count is above limit × 1048576 |
| Validators.MaxSize | apps/common/validators.py:10-27 | a file is refused exactly when it has more than limit × 1048576 bytes, with the `max_size` message naming the limit |
| Validators.MaxSizeBoundary | apps/common/validators.py:20-24 | a file of exactly the limit passes and one more byte is refused |
| Validators.ValidateRating | apps/common/validators.py:30-34 | a rating passes exactly when it is at most 5, and otherwise gets the rating message |
| Validators.NewListUnique | apps/common/validators.py:40-44 | the validator keeps the field names, and the given messages unless they are falsy, in which case the default message is used |
| Validators.Tally | apps/common/validators.py:54 | a value is counted at most once per item |
| Validators.ItemErrors | apps/common/validators.py:61-71 | an item's error entry holds exactly its duplicated fields with their messages, and the lookup fails exactly when a duplicated field has no message and no default |
| Validators.Call | apps/common/validators.py:50-73 | the call fails on an unhashable value, passes exactly when no listed field repeats a value, fails exactly when a message is missing, and otherwise raises one entry per item, in order |
| Validators.TallyPositive | apps/common/validators.py:54 | a value is counted at least once exactly when some item holds it |
| Validators.TallyTwice | apps/common/validators.py:54-57 | a value is counted more than once exactly when two different items hold it |
| Validators.FlaggedIffShared | apps/common/validators.py:64 | an item holding the field is reported exactly when another item holds an equal value |
| Validators.HasDuplicatesIffPair | apps/common/validators.py:53-58 | the validator raises exactly when two different items hold equal values for some listed field |
| Validators.MissingFieldLooksUpNull | apps/common/validators.py:64 | an item without the field is looked up as `None` and is reported when two items hold `null` there |
| Validators.UniqueItemNotReported | apps/common/validators.py:61-72 | an item whose values are all unique gets an empty error entry |
| ModelFields.TypeOfOptions | apps/common/model_fields.py:61-74 | a list whose first element is a tuple is `list_of_tuples`, another list is `list`, a dict is `dict`, and an empty list fails on its first element |
| ModelFields.Keys | apps/common/model_fields.py:34 | one option key per list element or dict entry |
| ModelFields.ChoiceAt | apps/common/model_fields.py:36-42 | the generated choice for an option has that option's key as its value |
| ModelFields.DefaultOption | apps/common/model_fields.py:86-96 | the default is the configured one, else the first key, and empty options fail even when a default is configured |
| ModelFields.NewChoiceField | apps/common/model_fields.py:29-54 | building fails exactly on missing options, empty options or a key without a length; otherwise the choices follow the options in order, `max_length` is the longest key length, the default is as configured, and the field is nullable exactly when the default is `None` |
| ModelFields.CheckMaxSize | apps/common/model_fields.py:139-152 | the check passes exactly for a positive integer, reports a missing size when it is `None`, and otherwise reports that it must be a positive number |
| Text.TrimStart | apps/access/serializers/user.py:18 | `str.strip()` (the CharField's trimming, and `int()` at apps/properties/views/webhook.py:46) drops exactly the leading whitespace, counting 0x1c to 0x1f as whitespace: what is left is a suffix that does not start with whitespace, and all that was dropped is whitespace |
| Text.TrimEnd | apps/access/serializers/user.py:18 | the same for the trailing whitespace: what is left is a prefix that does not end with whitespace, and all that was dropped is whitespace |
| Text.StripUnchanged | apps/access/serializers/user.py:18 | a string that neither starts nor ends with `str` whitespace is its own `strip()` |
| PhoneNumbers.ValidatePhoneNumber | apps/access/serializers/user.py:22-25 | a number passes exactly when it has ten characters that are all digits, and is returned unchanged |
| PhoneNumbers.PhoneStringAccepted | apps/access/serializers/user.py:15-25 | a submitted string passes exactly when its trimmed form has ten digits and then is that trimmed form; a blank string is refused as blank |
| PhoneNumbers.StringField | apps/access/serializers/user.py:15-25 | a non-blank string is judged on its trimmed form: a null character in it is refused by CharField's validator, otherwise `validate_phone_number` decides |
| PhoneNumbers.WrongLengthRefused | apps/access/serializers/user.py:22-25 | a digit string of any length but ten is refused |
| PhoneNumbers.NonDigitRefused | apps/access/serializers/user.py:22-25 | a character that is neither a digit nor `str` whitespace (a `+`, an inner space, a letter) makes the number fail: as a null character if it holds one, otherwise as not ten digits |
| PhoneNumbers.SeparatorStripped | apps/access/serializers/user.py:18 | a number behind separator 0x1c is stripped and accepted |
| PhoneNumbers.NullCharacterRefused | apps/access/serializers/user.py:18 | a null character inside the number is refused with "Null characters are not allowed." before the digit check |
| PhoneNumbers.NumberAccepted | apps/access/serializers/user.py:15-25 | a ten-digit JSON number passes as its decimal text |
| Permissions.HasPermission | apps/common/permission_class.py:11-16 | access is granted exactly when the view has `allowed_roles` and the user's role, or `None` for a user without one, is in it |
| Permissions.Roles | apps/properties/views/properties.py:48 | an `allowed_roles` list names each listed role's value, in order |
| Permissions.RoleListed | apps/common/permission_class.py:14-16 | a user holding a role passes a view exactly when that role is listed |
| Permissions.RoleValueInjective | apps/properties/choices.py:31-36 | different roles have different stored values |
| Permissions.NoRoleRefused | apps/common/permission_class.py:14 | a user without a role is refused unless `None` is listed |
| Permissions.NoAllowedRoles | apps/common/permission_class.py:15 | a view without `allowed_roles` lets nobody through |
| Permissions.CustomerLockedOut | apps/properties/views/booking.py:19 | only a guest may create a booking, and a customer is refused by the booking, browsing and administrator views alike |
| Permissions.PaidUserCannotBookAgain | apps/properties/views/webhook.py:50-52 | once the webhook has made a user a customer, that user is refused the next booking request |
| Idp.Headers | apps/common/idp_service.py:23-32 | the headers always carry the JSON content type, and carry `Bearer <token>` exactly when the token is truthy, and nothing else |
| Idp.GetRequest | apps/common/idp_service.py:34-45 | a GET to host plus path, with no body, the given parameters or an empty dict, and the token's headers |
| Idp.PostRequest | apps/common/idp_service.py:47-61 | a POST to host plus path, with the given body and parameters or empty dicts, and the token's headers |
| Idp.IdpPostRequestSent | apps/common/idp_service.py:64-67 | the POST helper drops its `params` argument: the request always carries empty parameters |
| Idp.IdpGetRequestSent | apps/common/idp_service.py:73-76 | the GET helper passes its parameters on |
| Idp.Classify | apps/common/idp_service.py:68-70 | a status of 200 gives success with the response's data and fails when there is none; any other status gives failure with the whole response |
| Idp.AdminAuthToken | apps/common/idp_service.py:82-97 | a failed authentication raises the field error or the assertion exactly when errors are to be raised; otherwise the answer is the data's access token |
| Idp.AuthToken | apps/common/idp_service.py:100-105 | a token is found exactly when the header has two whitespace-separated parts, and it is the second one |
| Idp.AuthTokenRoundTrip | apps/common/idp_service.py:30 | the bearer header the client builds reads back as the same token |
| Idp.SingleWordHeader | apps/common/idp_service.py:103-105 | a header of one word yields no token |
| Whatsapp.Remove | apps/common/whatsapp_service.py:25 | `replace("+", "")` leaves no `+`, shortens the text by the number of `+` removed, and leaves a text without one unchanged |
| Whatsapp.RemoveIsSplitJoin | apps/common/whatsapp_service.py:25 | removing a character is splitting on it and joining the pieces with nothing |
| Whatsapp.JoinFront | apps/common/whatsapp_service.py:25 | a character put in front of the first piece ends up in front of the joined text |
| Whatsapp.ProcessPayload | apps/common/whatsapp_service.py:20-33 | the sender is the configured WhatsApp number; the body greets the person's name (or nobody) with the code from `number`; the recipient is the person's phone number without `+`, or `whatsapp: +91` and the given phone |
| Whatsapp.OtpBodyWithoutPerson | apps/common/whatsapp_service.py:26-31 | without a person the greeting has no name and the recipient is the given phone with the Indian prefix |
| Whatsapp.Post | apps/common/whatsapp_service.py:35-42 | the answer succeeds exactly when the payload has all three keys and the send succeeds, and then carries the sent message; any failure carries no message |
| Whatsapp.PostPayload | apps/common/whatsapp_service.py:33-39 | posting a processed payload succeeds exactly when sending its sender, body and recipient succeeds |
| JsonData.PyStr | apps/common/whatsapp_service.py:31 | `str` of an integer is its signed decimal text and of a string the string itself, and only an integer's text starts with a digit or a minus sign |
| JsonData.PyEqEquivalence | apps/common/helpers.py:221 | Python equality on decoded values, where `True` equals 1, is reflexive, symmetric and transitive |
| Text.NatToStringRoundTrip | apps/properties/views/booking.py:44 | the decimal text of a number reads back as that number |
| Text.NatToStringInjective | apps/properties/views/booking.py:44 | two numbers have the same decimal text exactly when they are equal |
| Text.DigitsValueRoundTrip | apps/common/helpers.py:230 | a digit string without a leading zero is the decimal text of its value |
| Text.SplitJoin | apps/common/helpers.py:190 | joining the pieces of a split with the separator gives back the text |
| Text.Capitalize | apps/common/helpers.py:190 | `str.capitalize` upper-cases the first character and lower-cases the rest |
| Text.WordsOfPair | apps/common/idp_service.py:103 | two words joined by one space split back into those two words |

## Left out

- The Razorpay and Twilio SDK calls, signature verification and HTTP requests (`make_http_request`): foreign code. Their results are parameters.
- Row locking (`select_for_update`) and concurrent requests: the model is sequential, and atomic blocks are snapshot/restore.
- Cache expiry in `generate_otp`: entries never expire in the model. The cache is a map from the text of the key.
- `haversine`, `NearbyPropertiesView` and other float arithmetic: floating point is not modelled. `validate_rating` is modelled on reals.
- Framework glue: DRF field introspection, the generic view classes, the other property views, the managers and soft-delete base models, settings, routing, middleware, celery and management commands.
- The login and OTP views: request handling only. The OTP logic is modelled through `Helpers`.
- `RentalPayment`: never used by any view. Only its status enumeration is modelled.
- `stringify`, `convert_utc_to_local_timezone`, `random_n_token`, `random_letters`, `get_user_session_agent`, `file_upload_path`, `unpack_dj_choices`, `pause_thread`, `create_log`: not part of the modelled core.
- `Models.WellFormed` does not include uniqueness of room-type names. That constraint is checked where room types are created (`RoomGroups.EachNameOnce`).
- Newest-first ordering (`-created_at`) is modelled as descending id, assuming creation times increase with ids.
- Allocation.SingleGroupForCandidates: holds only while every bed carries its group's room type. A room-group update that changes the room type ends that (`RoomGroups.RetypeLeavesOldBeds`), and the lemma then says nothing.
- Allocation.AllocatesNewestCandidate: rests on the same premise. Once it fails, the allocated bed can be an older one (`Allocation.MixedGroupsSkipNewest`).
- Allocation.SelectBed: the order the database gives to room groups tied on the largest candidate count is unspecified. The model picks the group whose newest candidate is newest. The branch is reached only after a room group has changed room type (`Allocation.MixedGroupsSkipNewest`).
- Text.Upper, Text.Lower, Text.Capitalize and Helpers.TitleFromSpec treat letters, digits and whitespace as ASCII only. Python's Unicode case mapping, Unicode digits (`str.isdigit`) and Unicode whitespace are not modelled.
- JsonData.PyEqEquivalence: Python equality is modelled structurally. Floats are absent from the JSON values.
- JsonData.PyStr: lists and dicts are rendered only as far as their opening bracket.
- ModelFields.TypeOfOptions: a list mixing plain values and tuples is modelled by the kind of its first element only.
- Idp.AuthToken: the header is taken as already decoded text. Invalid UTF-8 is not modelled.
- BedNumbers.SuffixChar: `chr(65 + i)` at or beyond the surrogate code points (i ≥ 55231) is modelled as `'?'`, since Dafny characters exclude surrogates. Only a room type whose capacity is far above its name's reaches such an index.
- Decimals.Quantize: a decimal is taken as the sign, coefficient and exponent of `Decimal.as_tuple()`. Parsing the submitted text into a decimal, and the special values NaN and infinity, are not modelled.
- Helpers.RandomNDigits: requires n ≥ 1. `random_n_digits(0)` raises, because `randint` is given the bounds 0.1 and 0. The model does not include that call.
- Webhook.IntOfText: `int()` also strips Unicode whitespace and reads Unicode decimal digits. The model reads ASCII digits and strips ASCII whitespace only.
- Webhook.ColumnText: the text of a list or dict is modelled only as far as its opening bracket, as `JsonData.PyStr` renders it. A payment order id equal to a full Python `repr` of a list or dict is not modelled.
- RoomGroups.ProblemText: the texts the error-message mixin installs for the foreign-key fields come from a configuration module that is not part of this model. They are a parameter.
- BookingFlow.BookingRequest: the request arrives with its fields already typed (keys, dates, decimals). DRF's field conversion and its errors ("Incorrect type. Expected pk value, received str.", "Date has wrong format…") are not modelled.
- RoomGroups.GroupRequest: the same; the conversion errors of its fields ("Incorrect type. Expected pk value, received str.", "A valid integer is required.") are not modelled.
- Text.StrSpace: only the ASCII part of `str.isspace()` is modelled. `str.strip()` also strips Unicode whitespace (U+0085, U+00A0, U+2000 to U+200A and the rest). `Text.Strip`, `PhoneNumbers.PhoneNumberField` and `Webhook.IntOfText` inherit this.
- TimeSlots.MinutePart: the `\d` of `%M` and the `\s+` of the space in strptime's `str` pattern also match Unicode digits and Unicode whitespace. The model reads ASCII digits and the ASCII whitespace of `Text.StrSpace` only; `TimeSlots.DropSpaces` shares this.
- BookingFlow.CreateBooking: a request carrying an invalid token fails authentication before the view (401 "Invalid token."); the model's requester is either a known user or absent.
- Request fields sent as JSON null are not modelled: in both the room-group and the booking requests a field is either absent or carries a value. The null-field error texts (DRF's own, or "Please enter your …" under the error-message mixin) are therefore absent.
- Rolled-back writes still consume their ids: the id sequence is not rolled back, as with a database sequence.

## Findings

| source | as written | input that shows it | evidently intended | confidence | as-written member | corrected member |
|---|---|---|---|---|---|---|
| apps/properties/serializers/properties.py:208 | the latitude check counts `len(str(int(value)))`, so the minus sign uses up one of the two digits and every latitude of −10 or below is refused | latitude −45.5, longitude 77 | the whole part has at most two digits, so all of −90 ≤ v ≤ 90 is accepted; the longitude check at line 217 has the same flaw for −100 and below | high, not executed | Coordinates.SouthernLatitudeRefused | Coordinates.ValidateAccepts |
| apps/properties/serializers/properties.py:201 | the longitude field has `max_digits=22` with `decimal_places=20`, leaving two whole digits, so every longitude of magnitude 100 or more is refused before `validate_longitude` runs | latitude 12.9, longitude 120.5 | `max_digits=23`, so the three whole digits that `validate_longitude` allows are reachable | medium, not executed | Coordinates.EasternLongitudeRefused | Coordinates.ValidateAccepts |

What the code accepts as written is stated by `Coordinates.AsWrittenAccepts`: latitudes −10 < v ≤ 90 and longitudes −100 < v < 100, not both zero.
